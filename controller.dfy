/**
 * The per-guild playback state machine of the music service, on values.
 *
 * `State` holds the service's five maps keyed by guild id (queues, players,
 * connections, current songs, history), the log of calls made on players,
 * and the serial number the next voice connection/player pair receives.
 * Each operation is a function from a state (and its inputs) to the new
 * state and the reply record; the class in `Service` implements the same
 * operations by updating fields and is proved equal to these functions.
 */
module Controller {
  import opened Wrappers
  import opened Strings
  import opened Helpers
  import opened Tracks

  type GuildId = string
  type ChannelId = string

  /** A voice connection handle, opened on a channel for a guild. */
  datatype Connection = Connection(serial: nat, channel: ChannelId, guild: GuildId)

  /** An audio player handle, created together with its connection. */
  datatype Player = Player(serial: nat)

  /** The effects the service asks of a player. */
  datatype PlayerCall =
    | PlayResource(player: Player, url: string)
    | PausePlayer(player: Player)
    | UnpausePlayer(player: Player)
    | StopPlayer(player: Player)

  datatype State = State(
    queues: map<GuildId, seq<Song>>,
    players: map<GuildId, Player>,
    connections: map<GuildId, Connection>,
    currentSongs: map<GuildId, Song>,
    history: map<GuildId, seq<Song>>,
    calls: seq<PlayerCall>,
    serial: nat)

  /** The freshly constructed service: every map empty. */
  const Initial: State := State(map[], map[], map[], map[], map[], [], 0)

  const MaxHistory: nat := 50

  // Replies, with the source's messages.
  const NowPlaying: string := "Now playing"
  const AddedToQueue: string := "Added to queue"
  const CouldNotFind: string := "Could not find the song."
  const FailedToPlay: string := "Failed to play the song."
  const NoMusicPlaying: string := "No music is playing."
  const NoPreviousSong: string := "No previous song available."
  const NotInVoiceChannel: string := "You need to be in a voice channel!"
  const FailedRadio: string := "Failed to play radio station."

  datatype PlayReply = PlayOk(action: string, title: string, source: string, artist: string) | PlayErr(error: string)
  datatype Reply = Done | Failed(error: string)
  datatype SkipReply = Skipped(nextSong: Option<string>) | SkipFailed(error: string)
  datatype PreviousReply = WentBack(song: string) | NoPrevious(error: string)
  /** `PlaylistRejected`: the call's promise rejects (a TypeError escapes the service). */
  datatype PlaylistReply = Queued(songsAdded: nat) | PlaylistFailed(error: string) | PlaylistRejected

  /** The built-in playlist table and the radio-station table, in declaration order. */
  const Playlists: seq<(string, seq<string>)> := [
    ("salsa", [
      "Marc Anthony - Vivir Mi Vida",
      "La Santa Cecilia - La Negra",
      "Grupo Niche - Cali Aji",
      "Willie Colon - El Gran Varón",
      "Hector Lavoe - Periódico de Ayer"])]

  const RadioStations: seq<(string, string)> := [
    ("elsol", "https://us-b4-p-e-qg12-audio.cdn.mdstrm.com/live-audio-aw/632cb6ecaa9ace684913bf19")]

  // ---------------------------------------------------------------------
  // Invariant and per-guild view

  /**
   * What every reachable state satisfies: connections and players exist for
   * the same guilds and were created as a pair with a serial below the
   * next one; a guild with a history has a queue; every history holds at
   * most 50 songs.
   */
  ghost predicate Inv(s: State) {
    ConnectionsInv(s.connections, s.players, s.serial) && HistoryInv(s.queues, s.history)
  }

  /** Connections and players exist for the same guilds and were created as a pair. */
  ghost predicate ConnectionsInv(connections: map<GuildId, Connection>, players: map<GuildId, Player>, serial: nat) {
    && connections.Keys == players.Keys
    && (forall g :: g in players ==>
          connections[g].serial == players[g].serial < serial && connections[g].guild == g)
  }

  /** A guild with a history has a queue, and no history holds more than 50 songs. */
  ghost predicate HistoryInv(queues: map<GuildId, seq<Song>>, history: map<GuildId, seq<Song>>) {
    && history.Keys <= queues.Keys
    && (forall g :: g in history ==> |history[g]| <= MaxHistory)
  }

  function Get<V>(m: map<GuildId, V>, g: GuildId): Option<V> {
    if g in m then Some(m[g]) else None
  }

  /** Everything the five maps hold for one guild. */
  datatype GuildView = GuildView(queue: Option<seq<Song>>, history: Option<seq<Song>>, current: Option<Song>,
                                 player: Option<Player>, connection: Option<Connection>)

  function View(s: State, g: GuildId): GuildView {
    GuildView(Get(s.queues, g), Get(s.history, g), Get(s.currentSongs, g), Get(s.players, g), Get(s.connections, g))
  }

  const Absent: GuildView := GuildView(None, None, None, None, None)

  /** `t` agrees with `s` on every guild other than `g`. */
  ghost predicate OthersUntouched(s: State, t: State, g: GuildId) {
    && t.queues - {g} == s.queues - {g}
    && t.players - {g} == s.players - {g}
    && t.connections - {g} == s.connections - {g}
    && t.currentSongs - {g} == s.currentSongs - {g}
    && t.history - {g} == s.history - {g}
  }

  /** What `OthersUntouched` means for one other guild. */
  lemma OthersUntouchedView(s: State, t: State, g: GuildId, h: GuildId)
    requires OthersUntouched(s, t, g) && h != g
    ensures View(t, h) == View(s, h)
  {
    assert h in t.queues <==> h in t.queues - {g};
    assert h in s.queues <==> h in s.queues - {g};
    assert h in t.players <==> h in t.players - {g};
    assert h in s.players <==> h in s.players - {g};
    assert h in t.connections <==> h in t.connections - {g};
    assert h in s.connections <==> h in s.connections - {g};
    assert h in t.currentSongs <==> h in t.currentSongs - {g};
    assert h in s.currentSongs <==> h in s.currentSongs - {g};
    assert h in t.history <==> h in t.history - {g};
    assert h in s.history <==> h in s.history - {g};
  }

  // ---------------------------------------------------------------------
  // Bounded history

  /** The newest `n` elements of `s`. */
  function Newest<T>(s: seq<T>, n: nat): (r: seq<T>)
    ensures |r| == if |s| <= n then |s| else n
    ensures r == s[|s| - |r|..]
  {
    if |s| <= n then s else s[|s| - n..]
  }

  /** Keeping the newest `n` before appending loses nothing that keeping them after would keep. */
  lemma NewestConcat<T>(a: seq<T>, b: seq<T>, n: nat)
    ensures Newest(Newest(a, n) + b, n) == Newest(a + b, n)
  {
    if |a| > n {
      var c := a[|a| - n..] + b;
      assert c == (a + b)[|a| - n..];
      assert c[|c| - |Newest(c, n)|..] == (a + b)[|a + b| - |Newest(a + b, n)|..];
    }
  }

  /** `history.push(song); if (history.length > 50) history.shift();` */
  function AddToHistory(h: seq<Song>, song: Song): (r: seq<Song>)
    ensures |h| <= MaxHistory ==> r == Newest(h + [song], MaxHistory)
  {
    var pushed := h + [song];
    if |pushed| > MaxHistory then pushed[1..] else pushed
  }

  // ---------------------------------------------------------------------
  // Connection bookkeeping and cleanup

  /**
   * `createConnection(voiceChannel, guildId)`: without a voice channel the
   * join throws before anything is stored; otherwise a new connection and
   * its player are registered together under the next serial.
   */
  function CreateConnection(s: State, g: GuildId, voice: Option<ChannelId>): (r: Option<State>)
    ensures r.None? <==> voice.None?
    ensures r.Some? ==>
      && r.value.connections == s.connections[g := Connection(s.serial, voice.value, g)]
      && r.value.players == s.players[g := Player(s.serial)]
      && r.value.serial == s.serial + 1
      && r.value.(connections := s.connections, players := s.players, serial := s.serial) == s
  {
    match voice
    case None => None
    case Some(ch) =>
      Some(s.(connections := s.connections[g := Connection(s.serial, ch, g)],
              players := s.players[g := Player(s.serial)],
              serial := s.serial + 1))
  }

  /** `if (!this.connections.has(guildId)) await this.createConnection(voiceChannel, guildId);` */
  function EnsureConnection(s: State, g: GuildId, voice: Option<ChannelId>): (r: Option<State>)
    ensures r.None? <==> g !in s.connections && voice.None?
    ensures r.Some? ==> g in r.value.connections
    ensures r.Some? ==> r.value.queues == s.queues && r.value.history == s.history
    ensures r.Some? ==> r.value.currentSongs == s.currentSongs && r.value.calls == s.calls
    ensures r.Some? && g in s.connections ==> r.value == s
  {
    if g in s.connections then Some(s) else CreateConnection(s, g, voice)
  }

  /** Joining keeps the invariant and touches only the joining guild. */
  lemma EnsureConnectionPreservesInv(s: State, g: GuildId, voice: Option<ChannelId>)
    requires Inv(s)
    ensures CreateConnection(s, g, voice).Some? ==> Inv(CreateConnection(s, g, voice).value)
    ensures EnsureConnection(s, g, voice).Some? ==>
      Inv(EnsureConnection(s, g, voice).value) && OthersUntouched(s, EnsureConnection(s, g, voice).value, g)
  {
  }

  /** `cleanup(guildId)`: the guild leaves all five maps; the connection itself is not destroyed. */
  function Cleanup(s: State, g: GuildId): (r: State)
    ensures View(r, g) == Absent
    ensures OthersUntouched(s, r, g)
    ensures r.calls == s.calls && r.serial == s.serial
  {
    s.(queues := s.queues - {g}, players := s.players - {g}, connections := s.connections - {g},
       currentSongs := s.currentSongs - {g}, history := s.history - {g})
  }

  /** A voice connection reports that it was disconnected. */
  function OnDisconnected(s: State, g: GuildId): (r: State)
    ensures r == Cleanup(s, g)
  {
    Cleanup(s, g)
  }

  // ---------------------------------------------------------------------
  // Advancing the queue

  /** Opening the stream for `song` and handing it to the player succeed. */
  predicate Playable(hasPlayer: bool, streamFails: string -> bool, song: Song) {
    hasPlayer && !streamFails(song.url)
  }

  /**
   * `playNext(guildId)`. The Boolean is false when the call throws: a queue
   * without a history makes `history.push` fail after the front song has
   * been taken off the queue and made current.
   */
  function PlayNext(s: State, g: GuildId, streamFails: string -> bool): (r: (State, bool))
    ensures r.0.players == s.players && r.0.connections == s.connections && r.0.serial == s.serial
    ensures (g in r.0.queues <==> g in s.queues) && (g in r.0.history <==> g in s.history)
    decreases if g in s.queues then |s.queues[g]| else 0
  {
    if g !in s.queues || s.queues[g] == [] then
      (s.(currentSongs := s.currentSongs - {g}), true)
    else
      var song := s.queues[g][0];
      var s1 := TakeFront(s, g);
      if g !in s.history then (s1, false)
      else
        var s2 := Remember(s1, g, song);
        if Playable(g in s.players, streamFails, song) then
          (s2.(calls := s2.calls + [PlayResource(s.players[g], song.url)]), true)
        else
          PlayNext(s2, g, streamFails)
  }

  /** `queue.shift()` into the current song. */
  function TakeFront(s: State, g: GuildId): (r: State)
    requires g in s.queues && s.queues[g] != []
    ensures r.queues == s.queues[g := s.queues[g][1..]]
    ensures r.currentSongs == s.currentSongs[g := s.queues[g][0]]
    ensures r.(queues := s.queues, currentSongs := s.currentSongs) == s
  {
    s.(queues := s.queues[g := s.queues[g][1..]], currentSongs := s.currentSongs[g := s.queues[g][0]])
  }

  /** The song is appended to the guild's bounded history. */
  function Remember(s: State, g: GuildId, song: Song): (r: State)
    requires g in s.history
    ensures r.history == s.history[g := AddToHistory(s.history[g], song)]
    ensures r.(history := s.history) == s
  {
    s.(history := s.history[g := AddToHistory(s.history[g], song)])
  }

  /** The player of guild `g` reports Idle: its listener runs `playNext`. */
  function OnIdle(s: State, g: GuildId, streamFails: string -> bool): (r: State)
    ensures r == PlayNext(s, g, streamFails).0
  {
    PlayNext(s, g, streamFails).0
  }

  /** The index of the first song that can be played, or `|q|` if none can. */
  function FirstPlayable(q: seq<Song>, hasPlayer: bool, streamFails: string -> bool): (k: nat)
    ensures k <= |q|
    ensures forall j :: 0 <= j < k ==> !Playable(hasPlayer, streamFails, q[j])
    ensures k < |q| ==> Playable(hasPlayer, streamFails, q[k])
  {
    if q == [] then 0
    else if Playable(hasPlayer, streamFails, q[0]) then 0
    else 1 + FirstPlayable(q[1..], hasPlayer, streamFails)
  }

  /** How many songs one advance takes off a non-empty queue. */
  function Taken(q: seq<Song>, hasPlayer: bool, streamFails: string -> bool): nat {
    var k := FirstPlayable(q, hasPlayer, streamFails);
    if k < |q| then k + 1 else |q|
  }

  /** On a missing or empty queue, advancing only removes the guild's current song. */
  lemma PlayNextOnEmptyQueue(s: State, g: GuildId, streamFails: string -> bool)
    requires g !in s.queues || s.queues[g] == []
    ensures PlayNext(s, g, streamFails) == (s.(currentSongs := s.currentSongs - {g}), true)
  {
  }

  /**
   * A queue without a history: the front song is taken off and made
   * current, nothing is played, and the call throws.
   */
  lemma PlayNextWithoutHistory(s: State, g: GuildId, streamFails: string -> bool)
    requires g in s.queues && s.queues[g] != [] && g !in s.history
    ensures var (t, ok) := PlayNext(s, g, streamFails);
      && !ok
      && t.queues[g] == s.queues[g][1..]
      && t.currentSongs == s.currentSongs[g := s.queues[g][0]]
      && t.calls == s.calls && t.history == s.history
  {
  }

  /** What one advance does to a guild's queue and history, and the song it starts, if any. */
  datatype Advanced = Advanced(queue: seq<Song>, history: seq<Song>, started: Option<Song>)

  /**
   * A reference definition of `playNext` on one guild's queue and history
   * alone: the front song is remembered, and the next one is tried for as
   * long as opening a stream fails.
   */
  function Advance(q: seq<Song>, h: seq<Song>, hasPlayer: bool, streamFails: string -> bool): (a: Advanced)
    requires q != []
    ensures a.started.Some? ==> hasPlayer
    decreases |q|
  {
    var h1 := AddToHistory(h, q[0]);
    if Playable(hasPlayer, streamFails, q[0]) then Advanced(q[1..], h1, Some(q[0]))
    else if |q| == 1 then Advanced([], h1, None)
    else Advance(q[1..], h1, hasPlayer, streamFails)
  }

  /** The state after advance `a` of guild `g`: the started song is current and handed to the player. */
  function Finish(s: State, g: GuildId, a: Advanced): (r: State)
    requires a.started.Some? ==> g in s.players
  {
    s.(queues := s.queues[g := a.queue],
       history := s.history[g := a.history],
       currentSongs := if a.started.Some? then s.currentSongs[g := a.started.value] else s.currentSongs - {g},
       calls := if a.started.Some? then s.calls + [PlayResource(s.players[g], a.started.value.url)] else s.calls)
  }

  /** The state after taking off an unplayable front song, from which the advance continues. */
  function SkipFront(s: State, g: GuildId): (r: State)
    requires g in s.queues && s.queues[g] != [] && g in s.history
  {
    Remember(TakeFront(s, g), g, s.queues[g][0])
  }

  lemma SkipFrontAdvance(s: State, g: GuildId, streamFails: string -> bool)
    requires g in s.queues && s.queues[g] != [] && g in s.history
    requires !Playable(g in s.players, streamFails, s.queues[g][0])
    ensures PlayNext(s, g, streamFails) == PlayNext(SkipFront(s, g), g, streamFails)
  {
  }

  /** `playNext` on a guild with a non-empty queue and a history is the reference advance. */
  lemma {:induction false} PlayNextIsAdvance(s: State, g: GuildId, streamFails: string -> bool)
    requires g in s.queues && s.queues[g] != [] && g in s.history
    ensures PlayNext(s, g, streamFails) == (Finish(s, g, Advance(s.queues[g], s.history[g], g in s.players, streamFails)), true)
    decreases |s.queues[g]|
  {
    var q, h, p := s.queues[g], s.history[g], g in s.players;
    if !Playable(p, streamFails, q[0]) {
      SkipFrontAdvance(s, g, streamFails);
      var s2 := SkipFront(s, g);
      SkipFrontFields(s, g);
      if |q| >= 2 {
        PlayNextIsAdvance(s2, g, streamFails);
        FinishAfterSkip(s, g, Advance(q, h, p, streamFails));
      } else {
        FinishAfterSkip(s, g, Advance(q, h, p, streamFails));
      }
    }
  }

  lemma SkipFrontPreservesInv(s: State, g: GuildId)
    requires Inv(s) && g in s.queues && s.queues[g] != [] && g in s.history
    ensures Inv(SkipFront(s, g))
  {
    var s2 := SkipFront(s, g);
    assert s2.connections == s.connections && s2.players == s.players && s2.serial == s.serial;
    assert s2.queues.Keys == s.queues.Keys && s2.history.Keys == s.history.Keys;
  }
  lemma SkipFrontFields(s: State, g: GuildId)
    requires g in s.queues && s.queues[g] != [] && g in s.history
    ensures var s2 := SkipFront(s, g);
      && g in s2.queues && g in s2.history
      && s2.queues[g] == s.queues[g][1..] && s2.history[g] == AddToHistory(s.history[g], s.queues[g][0])
      && s2.players == s.players && s2.calls == s.calls
  {
  }

  /** Skipping first changes nothing that the advance then overwrites. */
  lemma FinishAfterSkip(s: State, g: GuildId, a: Advanced)
    requires g in s.queues && s.queues[g] != [] && g in s.history
    requires a.started.Some? ==> g in s.players
    ensures Finish(SkipFront(s, g), g, a) == Finish(s, g, a)
  {
    var s2 := SkipFront(s, g);
    assert s2.queues[g := a.queue] == s.queues[g := a.queue];
    assert s2.history[g := a.history] == s.history[g := a.history];
    assert s2.currentSongs - {g} == s.currentSongs - {g};
    if a.started.Some? {
      assert s2.currentSongs[g := a.started.value] == s.currentSongs[g := a.started.value];
    }
  }

  /** What the state after an advance holds for its guild. */
  lemma FinishFields(s: State, g: GuildId, a: Advanced)
    requires a.started.Some? ==> g in s.players
    ensures var t := Finish(s, g, a);
      && t.queues[g] == a.queue && t.history[g] == a.history
      && (g in t.currentSongs <==> a.started.Some?)
      && (a.started.Some? ==> t.currentSongs[g] == a.started.value && t.calls == s.calls + [PlayResource(s.players[g], a.started.value.url)])
      && (a.started.None? ==> t.calls == s.calls)
  {
  }

  /**
   * The reference advance of a non-empty queue takes off the front the
   * songs up to and including the first playable one (all of them if none
   * is playable) ...
   */
  lemma {:induction false} AdvanceQueue(q: seq<Song>, h: seq<Song>, hasPlayer: bool, streamFails: string -> bool)
    requires q != []
    ensures 1 <= Taken(q, hasPlayer, streamFails) <= |q|
    ensures Advance(q, h, hasPlayer, streamFails).queue == q[Taken(q, hasPlayer, streamFails)..]
    decreases |q|
  {
    if !Playable(hasPlayer, streamFails, q[0]) {
      if |q| >= 2 {
        AdvanceQueue(q[1..], AddToHistory(h, q[0]), hasPlayer, streamFails);
        TakenStep(q, hasPlayer, streamFails);
        assert q[1..][Taken(q[1..], hasPlayer, streamFails)..] == q[Taken(q, hasPlayer, streamFails)..];
      } else {
        assert FirstPlayable(q, hasPlayer, streamFails) == 1;
      }
    }
  }

  /** ... and appended to the history, which keeps only the newest 50 ... */
  lemma {:induction false} AdvanceHistory(q: seq<Song>, h: seq<Song>, hasPlayer: bool, streamFails: string -> bool)
    requires q != [] && |h| <= MaxHistory
    ensures Advance(q, h, hasPlayer, streamFails).history == Newest(h + q[..Taken(q, hasPlayer, streamFails)], MaxHistory)
    decreases |q|
  {
    if !Playable(hasPlayer, streamFails, q[0]) && |q| >= 2 {
      AdvanceHistory(q[1..], AddToHistory(h, q[0]), hasPlayer, streamFails);
      assert Advance(q, h, hasPlayer, streamFails) == Advance(q[1..], AddToHistory(h, q[0]), hasPlayer, streamFails);
      AdvanceHistoryStep(q, h, hasPlayer, streamFails);
    } else {
      assert q[..1] == [q[0]];
      assert !Playable(hasPlayer, streamFails, q[0]) ==> FirstPlayable(q, hasPlayer, streamFails) == 1;
    }
  }

  /** One skipped song: the history after it is the history of the rest of the queue. */
  lemma AdvanceHistoryStep(q: seq<Song>, h: seq<Song>, hasPlayer: bool, streamFails: string -> bool)
    requires |q| >= 2 && !Playable(hasPlayer, streamFails, q[0]) && |h| <= MaxHistory
    ensures var h1 := AddToHistory(h, q[0]);
      Newest(h1 + q[1..][..Taken(q[1..], hasPlayer, streamFails)], MaxHistory) == Newest(h + q[..Taken(q, hasPlayer, streamFails)], MaxHistory)
  {
    var m := Taken(q[1..], hasPlayer, streamFails);
    TakenStep(q, hasPlayer, streamFails);
    assert Taken(q, hasPlayer, streamFails) == m + 1;
    HistoryStep(h, q, m);
  }

  /**
   * ... the first playable song is started; if none plays, none is. Songs
   * whose stream failed stay in the history.
   */
  lemma {:induction false} AdvanceStarted(q: seq<Song>, h: seq<Song>, hasPlayer: bool, streamFails: string -> bool)
    requires q != []
    ensures var a, n := Advance(q, h, hasPlayer, streamFails), Taken(q, hasPlayer, streamFails);
      && 1 <= n <= |q|
      && (a.started.Some? <==> Playable(hasPlayer, streamFails, q[n - 1]))
      && (a.started.Some? ==> a.started.value == q[n - 1])
      && (a.started.None? ==> n == |q|)
    decreases |q|
  {
    if !Playable(hasPlayer, streamFails, q[0]) {
      if |q| >= 2 {
        AdvanceStarted(q[1..], AddToHistory(h, q[0]), hasPlayer, streamFails);
        TakenStep(q, hasPlayer, streamFails);
        assert q[1..][Taken(q[1..], hasPlayer, streamFails) - 1] == q[Taken(q, hasPlayer, streamFails) - 1];
      } else {
        assert FirstPlayable(q, hasPlayer, streamFails) == 1;
      }
    }
  }

  /** The history never grows past 50 songs. */
  lemma {:induction false} AdvanceBounded(q: seq<Song>, h: seq<Song>, hasPlayer: bool, streamFails: string -> bool)
    requires q != [] && |h| <= MaxHistory
    ensures |Advance(q, h, hasPlayer, streamFails).history| <= MaxHistory
    decreases |q|
  {
    if !Playable(hasPlayer, streamFails, q[0]) && |q| >= 2 {
      AdvanceBounded(q[1..], AddToHistory(h, q[0]), hasPlayer, streamFails);
    }
  }

  /**
   * Advancing a non-empty queue with a history, on the state: queue,
   * history and current song as the reference advance says; the started
   * song is handed to the guild's player, and nothing is handed over
   * otherwise.
   */
  lemma PlayNextOutcome(s: State, g: GuildId, streamFails: string -> bool)
    requires g in s.queues && s.queues[g] != [] && g in s.history && |s.history[g]| <= MaxHistory
    ensures var (t, ok) := PlayNext(s, g, streamFails);
      var q, n := s.queues[g], Taken(s.queues[g], g in s.players, streamFails);
      && ok
      && 1 <= n <= |q|
      && t.queues[g] == q[n..]
      && t.history[g] == Newest(s.history[g] + q[..n], MaxHistory)
      && (g in t.currentSongs <==> Playable(g in s.players, streamFails, q[n - 1]))
      && (g in t.currentSongs ==> t.currentSongs[g] == q[n - 1] && t.calls == s.calls + [PlayResource(s.players[g], q[n - 1].url)])
      && (g !in t.currentSongs ==> n == |q| && t.calls == s.calls)
  {
    PlayNextIsAdvance(s, g, streamFails);
    FinishOutcome(s, g, streamFails);
  }

  /** The state `Finish` leaves after advancing through the queue of `g`. */
  lemma FinishOutcome(s: State, g: GuildId, streamFails: string -> bool)
    requires g in s.queues && s.queues[g] != [] && g in s.history && |s.history[g]| <= MaxHistory
    ensures var q, p := s.queues[g], g in s.players;
      var t, n := Finish(s, g, Advance(q, s.history[g], p, streamFails)), Taken(q, p, streamFails);
      && 1 <= n <= |q|
      && t.queues[g] == q[n..]
      && t.history[g] == Newest(s.history[g] + q[..n], MaxHistory)
      && (g in t.currentSongs <==> Playable(p, streamFails, q[n - 1]))
      && (g in t.currentSongs ==> t.currentSongs[g] == q[n - 1] && t.calls == s.calls + [PlayResource(s.players[g], q[n - 1].url)])
      && (g !in t.currentSongs ==> n == |q| && t.calls == s.calls)
  {
    var q, h, p := s.queues[g], s.history[g], g in s.players;
    var a := Advance(q, h, p, streamFails);
    FinishFields(s, g, a);
    AdvanceQueue(q, h, p, streamFails);
    AdvanceHistory(q, h, p, streamFails);
    AdvanceStarted(q, h, p, streamFails);
  }

  lemma TakenStep(q: seq<Song>, hasPlayer: bool, streamFails: string -> bool)
    requires |q| >= 2 && !Playable(hasPlayer, streamFails, q[0])
    ensures Taken(q, hasPlayer, streamFails) == Taken(q[1..], hasPlayer, streamFails) + 1
    ensures 1 <= Taken(q[1..], hasPlayer, streamFails) <= |q| - 1
  {
    assert FirstPlayable(q, hasPlayer, streamFails) == 1 + FirstPlayable(q[1..], hasPlayer, streamFails);
  }

  lemma HistoryStep(h: seq<Song>, q: seq<Song>, m: nat)
    requires |h| <= MaxHistory && 1 <= m <= |q| - 1
    ensures q[1..][m..] == q[m + 1..]
    ensures Newest(AddToHistory(h, q[0]) + q[1..][..m], MaxHistory) == Newest(h + q[..m + 1], MaxHistory)
  {
    assert q[..m + 1] == [q[0]] + q[1..][..m];
    NewestConcat(h + [q[0]], q[1..][..m], MaxHistory);
    assert h + [q[0]] + q[1..][..m] == h + q[..m + 1];
  }

  /** Advancing keeps the invariant, in particular the 50-song bound, and touches only its own guild. */
  lemma PlayNextPreservesInv(s: State, g: GuildId, streamFails: string -> bool)
    requires Inv(s)
    ensures Inv(PlayNext(s, g, streamFails).0)
    ensures OthersUntouched(s, PlayNext(s, g, streamFails).0, g)
  {
    if g in s.queues && s.queues[g] != [] && g in s.history {
      var a := Advance(s.queues[g], s.history[g], g in s.players, streamFails);
      PlayNextIsAdvance(s, g, streamFails);
      AdvanceBounded(s.queues[g], s.history[g], g in s.players, streamFails);
      FinishPreservesInv(s, g, a);
    } else if g in s.queues && s.queues[g] != [] {
      assert PlayNext(s, g, streamFails).0 == TakeFront(s, g);
    }
  }

  /** An advance that keeps the history within bounds keeps the invariant. */
  lemma FinishPreservesInv(s: State, g: GuildId, a: Advanced)
    requires Inv(s) && g in s.queues && g in s.history && |a.history| <= MaxHistory
    requires a.started.Some? ==> g in s.players
    ensures Inv(Finish(s, g, a)) && OthersUntouched(s, Finish(s, g, a), g)
  {
  }

  // ---------------------------------------------------------------------
  // play

  /** `songInfo.source || "YouTube"`. */
  function ReportedSource(song: Song): string {
    if song.Track? && song.source != "" then song.source else YouTube
  }

  /** A guild without a queue gets an empty queue and an empty history. */
  function OpenGuild(s: State, g: GuildId): (r: State)
    ensures g in r.queues
    ensures g !in s.queues ==> r.queues == s.queues[g := []] && r.history == s.history[g := []]
    ensures g in s.queues ==> r == s
  {
    if g in s.queues then s else s.(queues := s.queues[g := []], history := s.history[g := []])
  }

  /** The state with `songs` appended to the queue of `g`. */
  function Enqueue(s: State, g: GuildId, songs: seq<Song>): (r: State)
    requires g in s.queues
    ensures r.queues == s.queues[g := s.queues[g] + songs]
    ensures r.(queues := s.queues) == s
  {
    s.(queues := s.queues[g := s.queues[g] + songs])
  }

  /**
   * Appending `songs` one at a time, each time opening the guild if it has
   * no queue: the same as opening it once and appending them all.
   */
  function EnqueueEach(s: State, g: GuildId, songs: seq<Song>): (r: State)
    ensures songs == [] ==> r == s
    ensures songs != [] ==> r == Enqueue(OpenGuild(s, g), g, songs)
    decreases |songs|
  {
    if songs == [] then s
    else
      var init := songs[..|songs| - 1];
      var t := EnqueueEach(s, g, init);
      assert init + [songs[|songs| - 1]] == songs;
      assert init != [] ==> OpenGuild(s, g).queues[g] + init + [songs[|songs| - 1]] == OpenGuild(s, g).queues[g] + songs;
      Enqueue(OpenGuild(t, g), g, [songs[|songs| - 1]])
  }

  /** Appending one more song after a run of appends. */
  lemma EnqueueEachStep(s: State, g: GuildId, songs: seq<Song>, song: Song)
    ensures EnqueueEach(s, g, songs + [song]) == Enqueue(OpenGuild(EnqueueEach(s, g, songs), g), g, [song])
  {
    assert (songs + [song])[..|songs|] == songs;
  }

  /**
   * `play(message, query, source)`: open the guild, look the query up,
   * append what was found, join the voice channel if the guild has no
   * connection, and advance when the queue has exactly one song; any
   * exception becomes "Failed to play the song.".
   */
  function Play(s: State, cat: Catalog, g: GuildId, voice: Option<ChannelId>, query: string, source: Option<string>): (r: (State, PlayReply))
    ensures g in r.0.queues
    ensures r.1.PlayErr? ==> r.1.error in {CouldNotFind, FailedToPlay}
  {
    var s0 := OpenGuild(s, g);
    match Resolve(cat, query, source)
    case SourceHintFault => (s0, PlayErr(FailedToPlay))
    case NotFound => (s0, PlayErr(CouldNotFind))
    case Found(song) => PlayFound(s0, cat, g, voice, song)
  }

  /** The rest of `play` once `song` was found for an opened guild. */
  function PlayFound(s: State, cat: Catalog, g: GuildId, voice: Option<ChannelId>, song: Song): (r: (State, PlayReply))
    requires g in s.queues && song.Track?
    ensures g in r.0.queues
    ensures r.1.PlayErr? ==> r.1.error == FailedToPlay
  {
    var s1 := Enqueue(s, g, [song]);
    match EnsureConnection(s1, g, voice)
    case None => (s1, PlayErr(FailedToPlay))
    case Some(c) =>
      if |s1.queues[g]| == 1 then
        var (s2, ok) := PlayNext(c, g, cat.streamFails);
        (s2, if ok then PlayOk(NowPlaying, song.title, ReportedSource(song), song.artist) else PlayErr(FailedToPlay))
      else
        (c, PlayOk(AddedToQueue, song.title, ReportedSource(song), song.artist))
  }

  /** A failed look-up still leaves a new guild with an empty queue and history, and changes nothing else. */
  lemma PlayNotFound(s: State, cat: Catalog, g: GuildId, voice: Option<ChannelId>, query: string, source: Option<string>)
    requires !Resolve(cat, query, source).Found?
    ensures var (t, reply) := Play(s, cat, g, voice, query, source);
      && t == OpenGuild(s, g)
      && reply == PlayErr(if Resolve(cat, query, source).NotFound? then CouldNotFind else FailedToPlay)
      && (Resolve(cat, query, source).SourceHintFault? <==> Truthy(source) && !IsSpotifyUrl(query) && !IsYouTubeUrl(query))
  {
  }

  /**
   * Once a song is found: the reply is "Now playing" exactly when a
   * connection exists or could be opened, the queue was empty before the
   * push (so its length became 1) and the guild has a history; it is "Added
   * to queue", with the song at the back of the queue, nothing played and
   * the current song and history untouched, when the queue already held
   * songs. In the "Now playing" case the song is taken off the queue,
   * remembered, and becomes current and is played exactly when its stream
   * opens; without a history it becomes current, is not played and the
   * reply is "Failed to play the song.". The current song is never
   * consulted.
   */
  lemma PlayFoundSpec(s: State, cat: Catalog, g: GuildId, voice: Option<ChannelId>, song: Song)
    requires Inv(s) && g in s.queues && song.Track?
    ensures var (t, reply) := PlayFound(s, cat, g, voice, song);
      var connectable := g in s.connections || voice.Some?;
      && (reply.PlayOk? && reply.action == NowPlaying <==> connectable && s.queues[g] == [] && g in s.history)
      && (reply.PlayOk? && reply.action == AddedToQueue <==> connectable && s.queues[g] != [])
      && (reply.PlayOk? ==> reply.title == song.title && reply.source == ReportedSource(song) && reply.artist == song.artist)
      && (reply.PlayOk? && reply.action == AddedToQueue ==>
            && t.queues[g] == s.queues[g] + [song] && t.currentSongs == s.currentSongs && t.history == s.history
            && t.calls == s.calls)
      && (!connectable ==> t.queues[g] == s.queues[g] + [song] && t.currentSongs == s.currentSongs && reply == PlayErr(FailedToPlay))
      && (connectable && s.queues[g] == [] ==>
            && g in t.players && t.queues[g] == []
            && (g in s.history ==>
                  && t.history[g] == Newest(s.history[g] + [song], MaxHistory)
                  && (g in t.currentSongs <==> !cat.streamFails(song.url))
                  && (g in t.currentSongs ==> t.currentSongs[g] == song && t.calls == s.calls + [PlayResource(t.players[g], song.url)])
                  && (g !in t.currentSongs ==> t.calls == s.calls))
            && (g !in s.history ==> reply == PlayErr(FailedToPlay) && t.currentSongs[g] == song && t.calls == s.calls))
  {
    var s1 := Enqueue(s, g, [song]);
    AppendPreservesInv(s, g, [song]);
    var c := EnsureConnection(s1, g, voice);
    if c.Some? {
      EnsureConnectionPreservesInv(s1, g, voice);
      var c1 := c.value;
      assert g in c1.players;
      if s.queues[g] == [] {
        assert c1.queues[g] == [song];
        if g in s.history {
          PlayNextStartsOne(c1, g, cat.streamFails);
        } else {
          PlayNextWithoutHistory(c1, g, cat.streamFails);
        }
      }
    }
  }

  /** Advancing a connected guild over a one-song queue: the song is started exactly when its stream opens. */
  lemma PlayNextStartsOne(s: State, g: GuildId, streamFails: string -> bool)
    requires Inv(s) && g in s.players && g in s.history && g in s.queues && |s.queues[g]| == 1
    ensures var (t, ok) := PlayNext(s, g, streamFails);
      var song := s.queues[g][0];
      && ok && t.queues[g] == []
      && t.history[g] == Newest(s.history[g] + [song], MaxHistory)
      && (g in t.currentSongs <==> !streamFails(song.url))
      && (g in t.currentSongs ==> t.currentSongs[g] == song && t.calls == s.calls + [PlayResource(s.players[g], song.url)])
      && (g !in t.currentSongs ==> t.calls == s.calls)
  {
    var q := s.queues[g];
    PlayNextOutcome(s, g, streamFails);
    assert Taken(q, true, streamFails) == 1;
    assert q[..1] == q;
  }

  /** Every song `play` finds is reported with source "YouTube". */
  lemma PlayReportsYouTube(s: State, cat: Catalog, g: GuildId, voice: Option<ChannelId>, query: string, source: Option<string>)
    ensures var reply := Play(s, cat, g, voice, query, source).1;
      reply.PlayOk? ==> Resolve(cat, query, source).Found? && reply.source == YouTube
  {
  }

  /**
   * `play` ignores what is playing: with a current song and an empty queue,
   * a found, playable song replaces the current one at once.
   */
  lemma PlayWhilePlayingWithEmptyQueue(s: State, cat: Catalog, g: GuildId, voice: Option<ChannelId>, query: string, source: Option<string>)
    requires Inv(s)
    requires g in s.currentSongs && g in s.queues && s.queues[g] == [] && g in s.history && g in s.connections
    requires Resolve(cat, query, source).Found? && !cat.streamFails(Resolve(cat, query, source).song.url)
    ensures var song := Resolve(cat, query, source).song;
      var (t, reply) := Play(s, cat, g, voice, query, source);
      && reply.PlayOk? && reply.action == NowPlaying
      && t.currentSongs[g] == song
      && t.calls == s.calls + [PlayResource(s.players[g], song.url)]
  {
    var song := Resolve(cat, query, source).song;
    var s1 := Enqueue(s, g, [song]);
    assert s1.queues[g] == [song];
    assert EnsureConnection(s1, g, voice) == Some(s1);
    PlayNextOutcome(s1, g, cat.streamFails);
    assert FirstPlayable([song], true, cat.streamFails) == 0;
  }

  // ---------------------------------------------------------------------
  // pause, resume, skip

  /** `pause(guildId)`: only the player is told; without a player nothing changes. */
  function Pause(s: State, g: GuildId): (r: (State, Reply))
    ensures r.0.(calls := s.calls) == s
    ensures r.1 == Done <==> g in s.players
    ensures r.1.Failed? ==> r.0 == s && r.1.error == NoMusicPlaying
    ensures r.1 == Done ==> r.0.calls == s.calls + [PausePlayer(s.players[g])]
  {
    if g !in s.players then (s, Failed(NoMusicPlaying))
    else (s.(calls := s.calls + [PausePlayer(s.players[g])]), Done)
  }

  /** `resume(guildId)`: only the player is told; without a player nothing changes. */
  function Resume(s: State, g: GuildId): (r: (State, Reply))
    ensures r.0.(calls := s.calls) == s
    ensures r.1 == Done <==> g in s.players
    ensures r.1.Failed? ==> r.0 == s && r.1.error == NoMusicPlaying
    ensures r.1 == Done ==> r.0.calls == s.calls + [UnpausePlayer(s.players[g])]
  {
    if g !in s.players then (s, Failed(NoMusicPlaying))
    else (s.(calls := s.calls + [UnpausePlayer(s.players[g])]), Done)
  }

  /**
   * `skip(guildId)`: stops the player and reports the title at the front of
   * the queue as read before stopping; the queue is left for the Idle
   * listener to advance.
   */
  function Skip(s: State, g: GuildId): (r: (State, SkipReply))
    ensures r.0.(calls := s.calls) == s
    ensures r.1.Skipped? <==> g in s.players
    ensures r.1.SkipFailed? ==> r.0 == s && r.1.error == NoMusicPlaying
    ensures r.1.Skipped? ==> r.0.calls == s.calls + [StopPlayer(s.players[g])]
    ensures r.1.Skipped? ==> (r.1.nextSong.Some? <==> g in s.queues && s.queues[g] != [])
    ensures r.1.Skipped? && r.1.nextSong.Some? ==> r.1.nextSong.value == s.queues[g][0].title
  {
    if g !in s.players then (s, SkipFailed(NoMusicPlaying))
    else
      var next := if g in s.queues && |s.queues[g]| > 0 then Some(s.queues[g][0].title) else None;
      (s.(calls := s.calls + [StopPlayer(s.players[g])]), Skipped(next))
  }

  /**
   * Skipping while A plays with queue [B, C]: the reply names B, and the
   * Idle notification that follows makes B current, leaves [C] queued and
   * appends B to the history.
   */
  lemma SkipThenIdle(s: State, g: GuildId, streamFails: string -> bool, b: Song, c: Song)
    requires Inv(s) && g in s.players && g in s.history
    requires s.queues[g] == [b, c] && !streamFails(b.url)
    ensures var (t, reply) := Skip(s, g);
      var u := OnIdle(t, g, streamFails);
      && reply == Skipped(Some(b.title))
      && u.currentSongs[g] == b && u.queues[g] == [c]
      && u.history[g] == Newest(s.history[g] + [b], MaxHistory)
  {
    var t := Skip(s, g).0;
    PlayNextOutcome(t, g, streamFails);
    assert FirstPlayable([b, c], true, streamFails) == 0;
    assert [b, c][..1] == [b];
  }

  // ---------------------------------------------------------------------
  // previous

  /**
   * `previous(guildId)`: with at least two songs of history, drop the last
   * two; put the current song (if any) back at the front of the queue and
   * the previous song in front of it; stop the player if there is one.
   */
  function Previous(s: State, g: GuildId): (r: (State, PreviousReply))
    requires Inv(s)
  {
    if g !in s.history || |s.history[g]| < 2 then (s, NoPrevious(NoPreviousSong))
    else
      var h := s.history[g];
      var prev := h[|h| - 2];
      var back := if g in s.currentSongs then [s.currentSongs[g]] else [];
      var calls := if g in s.players then s.calls + [StopPlayer(s.players[g])] else s.calls;
      (s.(history := s.history[g := h[..|h| - 2]], queues := s.queues[g := [prev] + back + s.queues[g]], calls := calls),
       WentBack(prev.title))
  }

  /**
   * Going back fails without two songs of history and changes nothing;
   * otherwise the history loses exactly its last two songs, the queue
   * becomes [previous] + [current, if any] + the old queue, the current
   * song stays as it was until the next advance, and the reply names the
   * previous song. No player is needed; when there is one it is told to
   * stop, which is what brings the Idle notification that plays the queue.
   */
  lemma PreviousSpec(s: State, g: GuildId)
    requires Inv(s)
    ensures var (t, reply) := Previous(s, g);
      && (g !in s.history || |s.history[g]| < 2 <==> reply.NoPrevious?)
      && (reply.NoPrevious? ==> t == s && reply.error == NoPreviousSong)
      && (reply.WentBack? ==>
            var h := s.history[g];
            && t.history[g] == h[..|h| - 2] && |t.history[g]| == |h| - 2
            && t.queues[g] == [h[|h| - 2]] + (if g in s.currentSongs then [s.currentSongs[g]] else []) + s.queues[g]
            && reply.song == h[|h| - 2].title
            && t.currentSongs == s.currentSongs && t.players == s.players && t.connections == s.connections
            && t.calls == (if g in s.players then s.calls + [StopPlayer(s.players[g])] else s.calls))
  {
  }

  /**
   * After two advances (history [A, B], current B, empty queue) going back
   * queues [A, B] and names A; the Idle notification then makes A current
   * and leaves [B] queued.
   */
  lemma PreviousThenIdle(s: State, g: GuildId, streamFails: string -> bool, a: Song, b: Song)
    requires Inv(s) && g in s.players && g in s.history && g in s.currentSongs
    requires s.history[g] == [a, b] && s.currentSongs[g] == b && s.queues[g] == [] && !streamFails(a.url)
    ensures var (t, reply) := Previous(s, g);
      var u := OnIdle(t, g, streamFails);
      && reply == WentBack(a.title)
      && t.queues[g] == [a, b]
      && u.currentSongs[g] == a && u.queues[g] == [b] && u.history[g] == [a]
  {
    var t := Previous(s, g).0;
    assert t.queues[g] == [a, b];
    assert t.history[g] == [];
    PlayNextOutcome(t, g, streamFails);
    assert FirstPlayable([a, b], true, streamFails) == 0;
    assert [a, b][..1] == [a];
  }

  // ---------------------------------------------------------------------
  // stop and getQueue

  /** `stop(guildId)`: clear the queue, stop the player, and clean the guild up. */
  function Stop(s: State, g: GuildId): (r: (State, Reply))
  {
    if g !in s.players then (s, Failed(NoMusicPlaying))
    else
      var cleared := if g in s.queues then s.(queues := s.queues[g := []]) else s;
      (Cleanup(cleared.(calls := s.calls + [StopPlayer(s.players[g])]), g), Done)
  }

  /**
   * Without a player stopping fails and changes nothing. Otherwise the
   * player is told to stop, the guild is in none of the five maps, the
   * other guilds are untouched, and the Idle notification that the stop
   * causes changes nothing.
   */
  lemma StopSpec(s: State, g: GuildId, streamFails: string -> bool)
    ensures var (t, reply) := Stop(s, g);
      && (g !in s.players ==> t == s && reply == Failed(NoMusicPlaying))
      && (g in s.players ==>
            && reply == Done
            && View(t, g) == Absent
            && OthersUntouched(s, t, g)
            && t.calls == s.calls + [StopPlayer(s.players[g])]
            && OnIdle(t, g, streamFails) == t)
  {
    var t := Stop(s, g).0;
    if g in s.players {
      assert t.currentSongs - {g} == t.currentSongs;
    }
  }

  /** `getQueue(guildId)`: the guild's queue, or empty. */
  function GetQueue(s: State, g: GuildId): (q: seq<Song>)
    ensures g in s.queues ==> q == s.queues[g]
    ensures g !in s.queues ==> q == []
  {
    if g in s.queues then s.queues[g] else []
  }

  // ---------------------------------------------------------------------
  // playlists and radio

  function Lookup<V>(table: seq<(string, V)>, key: string): (r: Option<V>)
    ensures r.Some? <==> exists i :: 0 <= i < |table| && table[i].0 == key
    ensures r.Some? ==> exists i :: 0 <= i < |table| && table[i] == (key, r.value)
  {
    if table == [] then None
    else if table[0].0 == key then Some(table[0].1)
    else
      var r := Lookup(table[1..], key);
      assert forall i :: 1 <= i < |table| ==> table[i] == table[1..][i - 1];
      r
  }

  function TableKeys<V>(table: seq<(string, V)>): seq<string> {
    seq(|table|, i requires 0 <= i < |table| => table[i].0)
  }

  function PlaylistNotFound(name: string): string {
    "Playlist \"" + name + "\" not found. Available: " + Join(TableKeys(Playlists), ", ")
  }

  function StationNotFound(name: string): string {
    "Radio station \"" + name + "\" not found. Available: " + Join(TableKeys(RadioStations), ", ")
  }

  /** The songs a keyword search finds for `queries`, in order; queries with no result are skipped. */
  function FoundSongs(cat: Catalog, queries: seq<string>): (r: seq<Song>)
    ensures |r| <= |queries|
    ensures forall k :: 0 <= k < |r| ==> r[k].Track? && r[k].source == YouTube
  {
    if queries == [] then []
    else
      var rest := FoundSongs(cat, queries[..|queries| - 1]);
      match SearchYouTubeSingle(cat, queries[|queries| - 1])
      case None => rest
      case Some(song) => rest + [song]
  }

  /** One more query: its song, when the search finds one, joins the songs found so far. */
  lemma FoundSongsStep(cat: Catalog, queries: seq<string>, i: nat)
    requires i < |queries|
    ensures var before := FoundSongs(cat, queries[..i]);
      FoundSongs(cat, queries[..i + 1]) ==
        (match SearchYouTubeSingle(cat, queries[i]) case None => before case Some(song) => before + [song])
  {
    assert queries[..i + 1][..i] == queries[..i];
  }

  /** Searching two runs of queries finds the songs of the first run, then those of the second. */
  lemma {:induction false} FoundSongsAppend(cat: Catalog, xs: seq<string>, ys: seq<string>)
    ensures FoundSongs(cat, xs + ys) == FoundSongs(cat, xs) + FoundSongs(cat, ys)
    decreases |ys|
  {
    if ys == [] {
      assert xs + ys == xs;
    } else {
      var last := ys[|ys| - 1];
      assert (xs + ys)[..|xs + ys| - 1] == xs + ys[..|ys| - 1];
      FoundSongsAppend(cat, xs, ys[..|ys| - 1]);
    }
  }

  /**
   * `playPlaylist(message, name)`: an unknown name fails first, then a
   * missing voice channel; every query that a search finds is appended in
   * order (opening the guild at the first one); if anything was added the
   * guild gets a connection and, when it has no current song, advances.
   */
  function PlayPlaylist(s: State, cat: Catalog, g: GuildId, voice: Option<ChannelId>, name: string): (r: (State, PlaylistReply))
    ensures r.1.Queued? ==> Lookup(Playlists, name).Some? && r.1.songsAdded <= |Lookup(Playlists, name).value|
  {
    match Lookup(Playlists, name)
    case None => (s, PlaylistFailed(PlaylistNotFound(name)))
    case Some(queries) =>
      if voice.None? then (s, PlaylistFailed(NotInVoiceChannel))
      else LoadSongs(s, cat, g, voice, FoundSongs(cat, queries))
  }

  /** The rest of `playPlaylist` once the songs `found` were searched for. */
  function LoadSongs(s: State, cat: Catalog, g: GuildId, voice: Option<ChannelId>, found: seq<Song>): (r: (State, PlaylistReply))
    requires voice.Some?
    ensures r.1.Queued? ==> r.1.songsAdded == |found|
    ensures !r.1.PlaylistFailed?
  {
    if found == [] then (s, Queued(0))
    else
      var s1 := Enqueue(OpenGuild(s, g), g, found);
      var s2 := EnsureConnection(s1, g, voice).value;
      if g in s2.currentSongs then (s2, Queued(|found|))
      else
        var (s3, ok) := PlayNext(s2, g, cat.streamFails);
        (s3, if ok then Queued(|found|) else PlaylistRejected)
  }

  /**
   * The outcome of loading a playlist: the not-found check comes before the
   * voice-channel check, and otherwise the found songs are loaded.
   */
  lemma PlayPlaylistSpec(s: State, cat: Catalog, g: GuildId, voice: Option<ChannelId>, name: string)
    ensures var (t, reply) := PlayPlaylist(s, cat, g, voice, name);
      && (Lookup(Playlists, name).None? ==> t == s && reply == PlaylistFailed(PlaylistNotFound(name)))
      && (Lookup(Playlists, name).Some? && voice.None? ==> t == s && reply == PlaylistFailed(NotInVoiceChannel))
      && (Lookup(Playlists, name).Some? && voice.Some? ==>
            (t, reply) == LoadSongs(s, cat, g, voice, FoundSongs(cat, Lookup(Playlists, name).value)))
  {
  }

  /**
   * Loading the found songs: the count is the number of songs found
   * (success even for none, which changes nothing); otherwise the guild
   * ends connected, and with a current song the songs are appended to the
   * queue, nothing is played and nothing else changes but the connection.
   */
  lemma LoadSongsSpec(s: State, cat: Catalog, g: GuildId, voice: Option<ChannelId>, found: seq<Song>)
    requires Inv(s) && voice.Some?
    ensures var (t, reply) := LoadSongs(s, cat, g, voice, found);
      var old_q := GetQueue(s, g);
      && (found == [] ==> t == s && reply == Queued(0))
      && (found != [] ==> g in t.connections && g in t.players)
      && (found != [] && g in s.currentSongs ==>
            && t.queues[g] == old_q + found && reply == Queued(|found|)
            && t.currentSongs == s.currentSongs && t.history == OpenGuild(s, g).history
            && t.calls == s.calls)
  {
    if found != [] {
      var s1 := Enqueue(OpenGuild(s, g), g, found);
      EnqueuePreservesInv(s, g, found);
      EnsureConnectionPreservesInv(s1, g, voice);
      var s2 := EnsureConnection(s1, g, voice).value;
      assert s2.queues[g] == GetQueue(s, g) + found;
    }
  }

  /**
   * Loading found songs into a guild with no current song and a history
   * advances it over old queue + found songs: the songs up to the first
   * playable one are taken and remembered, and that one is played.
   */
  lemma LoadSongsAdvance(s: State, cat: Catalog, g: GuildId, voice: Option<ChannelId>, found: seq<Song>)
    requires Inv(s) && voice.Some? && found != [] && g !in s.currentSongs && g in OpenGuild(s, g).history
    ensures var (t, reply) := LoadSongs(s, cat, g, voice, found);
      && reply == Queued(|found|)
      && AdvancedOver(GetQueue(s, g) + found, OpenGuild(s, g).history[g], s.calls, cat.streamFails, t, g)
  {
    var s2 := Connected(s, g, voice, found);
    LoadSongsConnects(s, cat, g, voice, found);
    AdvanceConnected(s2, g, cat.streamFails);
  }

  /**
   * A guild with a queue but neither a history nor a current song (one that
   * only played the radio): `playNext` throws outside any handler, so the
   * command is rejected after the front song was made current, unplayed.
   */
  lemma LoadSongsRejected(s: State, cat: Catalog, g: GuildId, voice: Option<ChannelId>, found: seq<Song>)
    requires Inv(s) && voice.Some? && found != [] && g !in s.currentSongs && g !in OpenGuild(s, g).history
    ensures var (t, reply) := LoadSongs(s, cat, g, voice, found);
      var q := GetQueue(s, g) + found;
      && reply == PlaylistRejected
      && t.queues[g] == q[1..] && t.currentSongs[g] == q[0] && t.calls == s.calls
  {
    var s2 := Connected(s, g, voice, found);
    LoadSongsConnects(s, cat, g, voice, found);
    AdvanceConnected(s2, g, cat.streamFails);
  }

  /** The guild once the found songs are appended and a connection is ensured. */
  function Connected(s: State, g: GuildId, voice: Option<ChannelId>, found: seq<Song>): State
    requires voice.Some?
  {
    EnsureConnection(Enqueue(OpenGuild(s, g), g, found), g, voice).value
  }

  lemma LoadSongsConnects(s: State, cat: Catalog, g: GuildId, voice: Option<ChannelId>, found: seq<Song>)
    requires Inv(s) && voice.Some? && found != [] && g !in s.currentSongs
    ensures var s2 := Connected(s, g, voice, found);
      && Inv(s2) && g in s2.players && g !in s2.currentSongs && s2.calls == s.calls
      && g in s2.queues && s2.queues[g] == GetQueue(s, g) + found
      && s2.history == OpenGuild(s, g).history
      && var r := PlayNext(s2, g, cat.streamFails);
         LoadSongs(s, cat, g, voice, found) == (r.0, if r.1 then Queued(|found|) else PlaylistRejected)
  {
    var s1 := Enqueue(OpenGuild(s, g), g, found);
    EnqueuePreservesInv(s, g, found);
    EnsureConnectionPreservesInv(s1, g, voice);
  }

  /**
   * `t` is the state after advancing guild `g` (which has a player) over
   * queue `q` from history `h` and call log `calls`: the songs up to and
   * including the first playable one are taken, or all of them; they are
   * all remembered; the last one taken is current and handed to the player
   * exactly when its stream opens, and otherwise nothing is played.
   */
  ghost predicate AdvancedOver(q: seq<Song>, h: seq<Song>, calls: seq<PlayerCall>, streamFails: string -> bool, t: State, g: GuildId) {
    var n := Taken(q, true, streamFails);
    && 1 <= n <= |q|
    && g in t.queues && t.queues[g] == q[n..]
    && g in t.history && t.history[g] == Newest(h + q[..n], MaxHistory)
    && (g in t.currentSongs <==> !streamFails(q[n - 1].url))
    && (g in t.currentSongs ==> g in t.players && t.currentSongs[g] == q[n - 1] && t.calls == calls + [PlayResource(t.players[g], q[n - 1].url)])
    && (g !in t.currentSongs ==> n == |q| && t.calls == calls)
  }

  /** `playNext` on a guild with a player and a non-empty queue, with and without a history. */
  lemma AdvanceConnected(s: State, g: GuildId, streamFails: string -> bool)
    requires Inv(s) && g in s.players && g in s.queues && s.queues[g] != []
    ensures var (t, ok) := PlayNext(s, g, streamFails);
      var q := s.queues[g];
      && (g !in s.history ==> !ok && t.queues[g] == q[1..] && t.currentSongs[g] == q[0] && t.calls == s.calls)
      && (g in s.history ==> ok && AdvancedOver(q, s.history[g], s.calls, streamFails, t, g))
  {
    if g in s.history {
      PlayNextIsAdvance(s, g, streamFails);
      FinishAdvancedOver(s, g, streamFails);
    } else {
      PlayNextWithoutHistory(s, g, streamFails);
    }
  }

  lemma FinishAdvancedOver(s: State, g: GuildId, streamFails: string -> bool)
    requires Inv(s) && g in s.players && g in s.queues && s.queues[g] != [] && g in s.history
    ensures var q, h := s.queues[g], s.history[g];
      AdvancedOver(q, h, s.calls, streamFails, Finish(s, g, Advance(q, h, true, streamFails)), g)
  {
    var q, h := s.queues[g], s.history[g];
    var t := Finish(s, g, Advance(q, h, true, streamFails));
    FinishOutcome(s, g, streamFails);
    assert t.players == s.players;
  }

  /**
   * `playRadio(message, name)`: an unknown station fails; otherwise join if
   * needed (failing without a voice channel), play the station's URL, empty
   * the queue and make a title/url record current. The history is not touched.
   */
  function PlayRadio(s: State, g: GuildId, voice: Option<ChannelId>, name: string): (r: (State, Reply))
    requires Inv(s)
  {
    match Lookup(RadioStations, name)
    case None => (s, Failed(StationNotFound(name)))
    case Some(url) => PlayStation(s, g, voice, name, url)
  }

  /** The rest of `playRadio` once the station's URL is known. */
  function PlayStation(s: State, g: GuildId, voice: Option<ChannelId>, name: string, url: string): (r: (State, Reply))
    requires Inv(s)
  {
    var c := EnsureConnection(s, g, voice);
    if c.None? then (s, Failed(FailedRadio))
    else (StartStation(c.value, g, RadioStream(Upper(name) + " Radio", url)), Done)
  }

  /** Emptying the queue of `g`, making `song` current and playing its URL. */
  function StartStation(s: State, g: GuildId, song: Song): (r: State)
    requires g in s.players
  {
    s.(calls := s.calls + [PlayResource(s.players[g], song.url)],
       queues := s.queues[g := []],
       currentSongs := s.currentSongs[g := song])
  }

  lemma StartStationPreservesInv(s: State, g: GuildId, song: Song)
    requires Inv(s) && g in s.players
    ensures Inv(StartStation(s, g, song)) && OthersUntouched(s, StartStation(s, g, song), g)
  {
  }

  /**
   * A known station with a connection or a voice channel empties the queue
   * whatever it held, makes "<NAME> Radio" with the station URL current (a
   * record without duration), plays that URL and leaves the history as it
   * was; in particular a new guild ends with a queue and no history.
   */
  lemma PlayRadioSpec(s: State, g: GuildId, voice: Option<ChannelId>, name: string)
    requires Inv(s)
    ensures var (t, reply) := PlayRadio(s, g, voice, name);
      && (Lookup(RadioStations, name).None? ==> t == s && reply == Failed(StationNotFound(name)))
      && (Lookup(RadioStations, name).Some? ==> (t, reply) == PlayStation(s, g, voice, name, Lookup(RadioStations, name).value))
  {
  }

  /**
   * Playing a station with a connection or a voice channel empties the queue
   * whatever it held, makes "<NAME> Radio" with the station URL current (a
   * record without duration), plays that URL and leaves the history as it
   * was; in particular a new guild ends with a queue and no history.
   * Without either, the join fails and nothing changes.
   */
  lemma PlayStationSpec(s: State, g: GuildId, voice: Option<ChannelId>, name: string, url: string)
    requires Inv(s)
    ensures var (t, reply) := PlayStation(s, g, voice, name, url);
      && (g !in s.connections && voice.None? ==> t == s && reply == Failed(FailedRadio))
      && (g in s.connections || voice.Some? ==>
            && reply == Done
            && t.queues[g] == []
            && t.currentSongs[g] == RadioStream(Upper(name) + " Radio", url)
            && t.history == s.history
            && t.calls[|t.calls| - 1] == PlayResource(t.players[g], url)
            && (g !in s.queues ==> g !in t.history))
  {
  }

  /**
   * The history gap the radio path leaves: on a guild without a queue,
   * radio followed by a `play` that finds a song fails with "Failed to play
   * the song.", and the found song becomes current without being played.
   */
  lemma PlayAfterRadioOnNewGuild(s: State, cat: Catalog, g: GuildId, voice: Option<ChannelId>, name: string, url: string,
                                 query: string, source: Option<string>)
    requires Inv(s) && g !in s.queues && (g in s.connections || voice.Some?)
    requires Resolve(cat, query, source).Found?
    ensures var u := PlayStation(s, g, voice, name, url).0;
      var (t, reply) := Play(u, cat, g, voice, query, source);
      && g in u.queues && g !in u.history
      && reply == PlayErr(FailedToPlay)
      && t.currentSongs[g] == Resolve(cat, query, source).song
      && t.calls == u.calls
  {
    var u := PlayStation(s, g, voice, name, url).0;
    var song := Resolve(cat, query, source).song;
    var s1 := Enqueue(u, g, [song]);
    assert s1.queues[g] == [song];
    assert EnsureConnection(s1, g, voice) == Some(s1);
    PlayNextWithoutHistory(s1, g, cat.streamFails);
  }

  /** "elsol" is the one station the table knows. */
  lemma KnownStation()
    ensures Lookup(RadioStations, "elsol").Some?
    ensures forall name :: Lookup(RadioStations, name).Some? ==> name == "elsol"
  {
  }

  // ---------------------------------------------------------------------
  // The service as a transition system

  datatype Event =
    | PlayCmd(guild: GuildId, voice: Option<ChannelId>, query: string, source: Option<string>)
    | PauseCmd(guild: GuildId)
    | ResumeCmd(guild: GuildId)
    | SkipCmd(guild: GuildId)
    | PreviousCmd(guild: GuildId)
    | StopCmd(guild: GuildId)
    | PlaylistCmd(guild: GuildId, voice: Option<ChannelId>, name: string)
    | RadioCmd(guild: GuildId, voice: Option<ChannelId>, name: string)
    | Idle(guild: GuildId)
    | Disconnected(guild: GuildId)

  /** The state after one command or notification. */
  function Step(s: State, cat: Catalog, e: Event): State
    requires Inv(s)
  {
    match e
    case PlayCmd(g, voice, query, source) => Play(s, cat, g, voice, query, source).0
    case PauseCmd(g) => Pause(s, g).0
    case ResumeCmd(g) => Resume(s, g).0
    case SkipCmd(g) => Skip(s, g).0
    case PreviousCmd(g) => Previous(s, g).0
    case StopCmd(g) => Stop(s, g).0
    case PlaylistCmd(g, voice, name) => PlayPlaylist(s, cat, g, voice, name).0
    case RadioCmd(g, voice, name) => PlayRadio(s, g, voice, name).0
    case Idle(g) => OnIdle(s, g, cat.streamFails)
    case Disconnected(g) => OnDisconnected(s, g)
  }

  lemma OthersUntouchedTrans(s: State, t: State, u: State, g: GuildId)
    requires OthersUntouched(s, t, g) && OthersUntouched(t, u, g)
    ensures OthersUntouched(s, u, g)
  {
  }

  /** Opening a guild keeps the invariant and touches that guild only. */
  lemma OpenGuildPreservesInv(s: State, g: GuildId)
    requires Inv(s)
    ensures Inv(OpenGuild(s, g)) && OthersUntouched(s, OpenGuild(s, g), g)
  {
  }

  /** Appending to an open guild's queue keeps the invariant and touches that guild only. */
  lemma AppendPreservesInv(s: State, g: GuildId, songs: seq<Song>)
    requires Inv(s) && g in s.queues
    ensures Inv(Enqueue(s, g, songs)) && OthersUntouched(s, Enqueue(s, g, songs), g)
  {
  }

  /** Opening a guild and appending to its queue keep the invariant and touch that guild only. */
  lemma EnqueuePreservesInv(s: State, g: GuildId, songs: seq<Song>)
    requires Inv(s)
    ensures Inv(Enqueue(OpenGuild(s, g), g, songs))
    ensures OthersUntouched(s, Enqueue(OpenGuild(s, g), g, songs), g)
  {
    var s0 := OpenGuild(s, g);
    OpenGuildPreservesInv(s, g);
    AppendPreservesInv(s0, g, songs);
    OthersUntouchedTrans(s, s0, Enqueue(s0, g, songs), g);
  }

  /** Joining if needed and advancing keep the invariant and touch that guild only. */
  lemma ConnectAndAdvancePreservesInv(s: State, g: GuildId, voice: Option<ChannelId>, streamFails: string -> bool)
    requires Inv(s)
    ensures EnsureConnection(s, g, voice).Some? ==>
        var c := EnsureConnection(s, g, voice).value;
        && Inv(c) && OthersUntouched(s, c, g)
        && Inv(PlayNext(c, g, streamFails).0) && OthersUntouched(s, PlayNext(c, g, streamFails).0, g)
  {
    EnsureConnectionPreservesInv(s, g, voice);
    var c := EnsureConnection(s, g, voice);
    if c.Some? {
      var t := PlayNext(c.value, g, streamFails).0;
      PlayNextPreservesInv(c.value, g, streamFails);
      OthersUntouchedTrans(s, c.value, t, g);
    }
  }

  /** Appending, joining if needed and advancing keep the invariant and touch that guild only. */
  lemma EnqueueAndAdvancePreservesInv(s: State, g: GuildId, voice: Option<ChannelId>, songs: seq<Song>, streamFails: string -> bool)
    requires Inv(s)
    ensures var s1 := Enqueue(OpenGuild(s, g), g, songs);
      EnsureConnection(s1, g, voice).Some? ==>
        var s2 := EnsureConnection(s1, g, voice).value;
        && Inv(s2) && OthersUntouched(s, s2, g)
        && Inv(PlayNext(s2, g, streamFails).0) && OthersUntouched(s, PlayNext(s2, g, streamFails).0, g)
  {
    var s1 := Enqueue(OpenGuild(s, g), g, songs);
    EnqueuePreservesInv(s, g, songs);
    ConnectAndAdvancePreservesInv(s1, g, voice, streamFails);
    var c := EnsureConnection(s1, g, voice);
    if c.Some? {
      var t := PlayNext(c.value, g, streamFails).0;
      OthersUntouchedTrans(s, s1, c.value, g);
      OthersUntouchedTrans(s, s1, t, g);
    }
  }

  /** The rest of `play` keeps the invariant and touches that guild only. */
  lemma PlayFoundPreservesInv(s: State, cat: Catalog, g: GuildId, voice: Option<ChannelId>, song: Song)
    requires Inv(s) && g in s.queues && song.Track?
    ensures Inv(PlayFound(s, cat, g, voice, song).0) && OthersUntouched(s, PlayFound(s, cat, g, voice, song).0, g)
  {
    var s1 := Enqueue(s, g, [song]);
    AppendPreservesInv(s, g, [song]);
    ConnectAndAdvancePreservesInv(s1, g, voice, cat.streamFails);
    var c := EnsureConnection(s1, g, voice);
    if c.Some? {
      var t := PlayFound(s, cat, g, voice, song).0;
      assert t == c.value || t == PlayNext(c.value, g, cat.streamFails).0;
      OthersUntouchedTrans(s, s1, t, g);
    }
  }

  lemma PlayPreservesInv(s: State, cat: Catalog, g: GuildId, voice: Option<ChannelId>, query: string, source: Option<string>)
    requires Inv(s)
    ensures Inv(Play(s, cat, g, voice, query, source).0)
    ensures OthersUntouched(s, Play(s, cat, g, voice, query, source).0, g)
  {
    var s0 := OpenGuild(s, g);
    OpenGuildPreservesInv(s, g);
    var r := Resolve(cat, query, source);
    if r.Found? {
      var t := PlayFound(s0, cat, g, voice, r.song).0;
      PlayFoundPreservesInv(s0, cat, g, voice, r.song);
      OthersUntouchedTrans(s, s0, t, g);
    }
  }

  lemma PlayPlaylistPreservesInv(s: State, cat: Catalog, g: GuildId, voice: Option<ChannelId>, name: string)
    requires Inv(s)
    ensures Inv(PlayPlaylist(s, cat, g, voice, name).0)
    ensures OthersUntouched(s, PlayPlaylist(s, cat, g, voice, name).0, g)
  {
    if Lookup(Playlists, name).Some? && voice.Some? {
      var found := FoundSongs(cat, Lookup(Playlists, name).value);
      EnqueueAndAdvancePreservesInv(s, g, voice, found, cat.streamFails);
    }
  }

  lemma PlayerCommandsPreserveInv(s: State, g: GuildId)
    requires Inv(s)
    ensures Inv(Pause(s, g).0) && OthersUntouched(s, Pause(s, g).0, g)
    ensures Inv(Resume(s, g).0) && OthersUntouched(s, Resume(s, g).0, g)
    ensures Inv(Skip(s, g).0) && OthersUntouched(s, Skip(s, g).0, g)
  {
  }

  lemma PreviousPreservesInv(s: State, g: GuildId)
    requires Inv(s)
    ensures Inv(Previous(s, g).0) && OthersUntouched(s, Previous(s, g).0, g)
  {
  }

  lemma StopPreservesInv(s: State, g: GuildId)
    requires Inv(s)
    ensures Inv(Stop(s, g).0) && OthersUntouched(s, Stop(s, g).0, g)
    ensures Inv(Cleanup(s, g))
  {
  }

  lemma PlayRadioPreservesInv(s: State, g: GuildId, voice: Option<ChannelId>, name: string)
    requires Inv(s)
    ensures Inv(PlayRadio(s, g, voice, name).0) && OthersUntouched(s, PlayRadio(s, g, voice, name).0, g)
  {
    if Lookup(RadioStations, name).Some? {
      PlayStationPreservesInv(s, g, voice, name, Lookup(RadioStations, name).value);
    }
  }

  lemma PlayStationPreservesInv(s: State, g: GuildId, voice: Option<ChannelId>, name: string, url: string)
    requires Inv(s)
    ensures Inv(PlayStation(s, g, voice, name, url).0) && OthersUntouched(s, PlayStation(s, g, voice, name, url).0, g)
  {
    EnsureConnectionPreservesInv(s, g, voice);
    var c := EnsureConnection(s, g, voice);
    if c.Some? {
      var song := RadioStream(Upper(name) + " Radio", url);
      StartStationPreservesInv(c.value, g, song);
      OthersUntouchedTrans(s, c.value, StartStation(c.value, g, song), g);
    }
  }

  /** Every command and notification keeps the invariant, and touches only its own guild. */
  lemma StepPreservesInv(s: State, cat: Catalog, e: Event)
    requires Inv(s)
    ensures Inv(Step(s, cat, e))
    ensures OthersUntouched(s, Step(s, cat, e), e.guild)
  {
    match e
    case PlayCmd(g, voice, query, source) => PlayPreservesInv(s, cat, g, voice, query, source);
    case PauseCmd(g) => PlayerCommandsPreserveInv(s, g);
    case ResumeCmd(g) => PlayerCommandsPreserveInv(s, g);
    case SkipCmd(g) => PlayerCommandsPreserveInv(s, g);
    case PreviousCmd(g) => PreviousPreservesInv(s, g);
    case StopCmd(g) => StopPreservesInv(s, g);
    case PlaylistCmd(g, voice, name) => PlayPlaylistPreservesInv(s, cat, g, voice, name);
    case RadioCmd(g, voice, name) => PlayRadioPreservesInv(s, g, voice, name);
    case Idle(g) => PlayNextPreservesInv(s, g, cat.streamFails);
    case Disconnected(g) => StopPreservesInv(s, g);
  }

  /** Guilds are isolated: a command or notification for one guild leaves what every other guild holds as it was. */
  lemma StepIsolatesGuilds(s: State, cat: Catalog, e: Event, h: GuildId)
    requires Inv(s) && h != e.guild
    ensures View(Step(s, cat, e), h) == View(s, h)
  {
    StepPreservesInv(s, cat, e);
    OthersUntouchedView(s, Step(s, cat, e), e.guild, h);
  }

  /** The state after a sequence of commands and notifications, from a state satisfying the invariant. */
  function Run(s: State, cat: Catalog, es: seq<Event>): (r: State)
    requires Inv(s)
    ensures Inv(r)
    decreases |es|
  {
    if es == [] then s
    else
      StepPreservesInv(s, cat, es[0]);
      Run(Step(s, cat, es[0]), cat, es[1..])
  }

  /**
   * In every state the service can reach, a guild has a connection exactly
   * when it has a player, and no history holds more than 50 songs.
   */
  lemma ReachableStates(cat: Catalog, es: seq<Event>, g: GuildId)
    ensures var s := Run(Initial, cat, es);
      && (g in s.connections <==> g in s.players)
      && (g in s.history ==> |s.history[g]| <= MaxHistory)
      && (g in s.history ==> g in s.queues)
  {
    var s := Run(Initial, cat, es);
    assert Inv(s);
  }
}
