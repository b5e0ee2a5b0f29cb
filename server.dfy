/** The matchmaking and relay server. Every handler runs to completion
    before the next one starts, so each is one method of `LobbyServer`.
    The clock (milliseconds), the date string and the new game id are
    parameters; what the server emits is returned as a list of messages,
    one per recipient. */
module Lobby {
  import opened Protocol

  type SocketId = string
  type GameId = string

  /** A searching player; `id` and `socketId` are both the socket's id. */
  datatype Player = Player(id: SocketId, username: string, socketId: SocketId)

  /** The `GAME_OVER` payload, relayed as received. */
  datatype GameOverData = GameOverData(gameId: GameId, winner: string)

  datatype Event =
    | GameFound(gameId: GameId, color: Color, opponent: string, opponentElo: int)
    | OpponentMove(move: string, nextTurn: Color, pgn: Option<string>)
    | GameOver(data: GameOverData)
    | LobbyStats(activePlayers: nat, gamesCompletedToday: nat, avgWaitTime: int)

  datatype Message = Message(to: SocketId, event: Event)

  /** How many wait-time samples are kept. */
  const MaxWaitSamples := 20
  /** The rating announced for every opponent. */
  const MockElo := 1200

  // ---------------------------------------------------------------------
  // Statistics

  /** `Math.round(ms / 1000)`: whole seconds, halves rounded up. */
  function RoundedSeconds(ms: int): (r: int)
    ensures 1000 * r - 500 <= ms < 1000 * r + 500
  {
    (ms + 500) / 1000
  }

  /** The wait recorded for the waiting player `id` when a partner arrives at
      `now`. A missing start time, and a stored 0 (which the lookup's `||`
      treats as missing), fall back to `now`, i.e. a zero wait. */
  function WaitSample(starts: map<SocketId, int>, id: SocketId, now: int): (r: int)
    ensures id !in starts || starts[id] == 0 ==> r == 0
    ensures id in starts && starts[id] != 0 ==> 1000 * r - 500 <= now - starts[id] < 1000 * r + 500
  {
    var start := if id in starts && starts[id] != 0 then starts[id] else now;
    RoundedSeconds(now - start)
  }

  /** Append a sample and drop the oldest one when that makes 21. */
  function PushWaitTime(buf: seq<int>, x: int): (r: seq<int>)
    ensures |buf| <= MaxWaitSamples ==> |r| <= MaxWaitSamples
    ensures |r| >= 1 && r[|r| - 1] == x
    ensures |buf| < MaxWaitSamples ==> r == buf + [x]
    ensures |buf| == MaxWaitSamples ==> r == buf[1..] + [x]
  {
    var b := buf + [x];
    if |b| > MaxWaitSamples then b[1..] else b
  }

  function Sum(s: seq<int>): int
  {
    if s == [] then 0 else Sum(s[..|s| - 1]) + s[|s| - 1]
  }

  /** The mean rounded half up, `Math.round(sum / n)`, or 0 with no samples. */
  function AverageWait(samples: seq<int>): (r: int)
    ensures samples == [] ==> r == 0
    ensures samples != [] ==> |samples| * (2 * r - 1) <= 2 * Sum(samples) < |samples| * (2 * r + 1)
  {
    if samples == [] then 0
    else
      var n := |samples|;
      var q := (2 * Sum(samples) + n) / (2 * n);
      DivBounds(2 * Sum(samples) + n, 2 * n);
      q
  }

  lemma DivBounds(a: int, b: int)
    requires b > 0
    ensures b * (a / b) <= a < b * (a / b) + b
  {
  }

  /** Pushing several samples in turn. */
  function PushAll(buf: seq<int>, xs: seq<int>): seq<int>
    decreases |xs|
  {
    if xs == [] then buf else PushAll(PushWaitTime(buf, xs[0]), xs[1..])
  }

  /** The buffer always holds the newest samples, at most twenty of them,
      in arrival order: after capacity + 1 pushes the oldest is gone. */
  lemma {:induction false} PushAllKeepsNewest(buf: seq<int>, xs: seq<int>)
    requires |buf| <= MaxWaitSamples
    decreases |xs|
    ensures var all := buf + xs;
            var k := if |all| < MaxWaitSamples then |all| else MaxWaitSamples;
            PushAll(buf, xs) == all[|all| - k..]
  {
    if xs != [] {
      var next := PushWaitTime(buf, xs[0]);
      PushAllKeepsNewest(next, xs[1..]);
      var all := buf + xs;
      if |buf| == MaxWaitSamples {
        assert next + xs[1..] == all[1..];
      } else {
        assert next + xs[1..] == all;
      }
    }
  }

  /** Sums of samples in a range stay in the range, scaled by the count. */
  lemma {:induction false} SumBounds(s: seq<int>, lo: int, hi: int)
    requires forall i :: 0 <= i < |s| ==> lo <= s[i] <= hi
    ensures |s| * lo <= Sum(s) <= |s| * hi
  {
    if s != [] {
      SumBounds(s[..|s| - 1], lo, hi);
    }
  }

  lemma ScaleLe(n: int, x: int, y: int)
    requires n > 0 && n * x <= n * y
    ensures x <= y
  {
    assert n * y - n * x == n * (y - x);
  }

  /** The published average lies between the smallest and the largest sample. */
  lemma AverageWithinSamples(samples: seq<int>, lo: int, hi: int)
    requires samples != []
    requires forall i :: 0 <= i < |samples| ==> lo <= samples[i] <= hi
    ensures lo <= AverageWait(samples) <= hi
  {
    var n, r, total := |samples|, AverageWait(samples), Sum(samples);
    SumBounds(samples, lo, hi);
    assert n * (2 * hi) == 2 * (n * hi) && n * (2 * lo) == 2 * (n * lo);
    assert n * (2 * r - 1) <= 2 * total <= n * (2 * hi);
    assert n * (2 * lo) <= 2 * total < n * (2 * r + 1);
    ScaleLe(n, 2 * r - 1, 2 * hi);
    ScaleLe(n, 2 * lo, 2 * r + 1);
  }

  // ---------------------------------------------------------------------
  // Delivery

  /** The sockets a list of messages goes to. */
  function Recipients(out: seq<Message>): set<SocketId>
  {
    set i | 0 <= i < |out| :: out[i].to
  }

  /** Each message of `out` carries `e` and goes to its own socket. */
  predicate OnePerRecipient(out: seq<Message>, e: Event)
  {
    && (forall i :: 0 <= i < |out| ==> out[i].event == e)
    && (forall i, j :: 0 <= i < j < |out| ==> out[i].to != out[j].to)
  }

  /** Adding a message for a socket not yet served keeps one message per recipient. */
  lemma AppendFresh(out: seq<Message>, m: Message, e: Event)
    requires OnePerRecipient(out, e) && m.event == e && m.to !in Recipients(out)
    ensures OnePerRecipient(out + [m], e)
    ensures Recipients(out + [m]) == Recipients(out) + {m.to}
  {
    var ext := out + [m];
    assert forall i :: 0 <= i < |out| ==> ext[i] == out[i] && out[i].to in Recipients(out);
    assert ext[|out|] == m;
  }

  /** Emitting `e` to a set of sockets: one message to each, in no
      particular order. */
  method Fanout(targets: set<SocketId>, e: Event) returns (out: seq<Message>)
    ensures Recipients(out) == targets
    ensures OnePerRecipient(out, e)
    ensures |out| == |targets|
  {
    out := [];
    var rest := targets;
    while rest != {}
      invariant rest <= targets
      invariant Recipients(out) == targets - rest
      invariant OnePerRecipient(out, e)
      invariant |out| + |rest| == |targets|
      decreases |rest|
    {
      var s :| s in rest;
      AppendFresh(out, Message(s, e), e);
      out := out + [Message(s, e)];
      rest := rest - {s};
    }
  }

  // ---------------------------------------------------------------------
  // The server

  class LobbyServer {
    /** Sockets currently connected. */
    var connected: set<SocketId>
    /** The waiting slot. */
    var waitingPlayer: Option<Player>
    /** When each searching socket started its search (ms). */
    var searchStartTimes: map<SocketId, int>
    /** Recent waits (s), oldest first. */
    var waitTimes: seq<int>
    var gamesCompletedToday: nat
    var lastResetDate: string
    /** Room memberships, by game id. */
    var rooms: map<GameId, set<SocketId>>

    /** The waiting player is connected and still has a start time; the
        buffer respects its bound; only connected sockets are searching or
        in rooms. */
    ghost predicate Valid()
      reads this
    {
      && (waitingPlayer.Some? ==>
            && waitingPlayer.value.socketId in connected
            && waitingPlayer.value.socketId in searchStartTimes
            && waitingPlayer.value.id == waitingPlayer.value.socketId)
      && |waitTimes| <= MaxWaitSamples
      && searchStartTimes.Keys <= connected
      && (forall g :: g in rooms ==> rooms[g] <= connected)
    }

    /** The sockets that joined game `g`. */
    function GameRoom(g: GameId): set<SocketId>
      reads this
    {
      if g in rooms then rooms[g] else {}
    }

    /** The sockets an emit to room `g` reaches: the transport also puts
        every connected socket in a room named by its own id. */
    function Room(g: GameId): (r: set<SocketId>)
      reads this
      ensures Valid() ==> r <= connected
      ensures forall s :: s in r <==> s in GameRoom(g) || (s == g && g in connected)
    {
      GameRoom(g) + (if g in connected then {g} else {})
    }

    /** The `LOBBY_STATS` payload. */
    function Snapshot(): (e: Event)
      reads this
      ensures e.LobbyStats? && e.activePlayers == |connected| && e.gamesCompletedToday == gamesCompletedToday
      ensures waitTimes == [] ==> e.avgWaitTime == 0
    {
      LobbyStats(|connected|, gamesCompletedToday, AverageWait(waitTimes))
    }

    /** Server start on `today`. */
    constructor (today: string)
      ensures Valid()
      ensures connected == {} && waitingPlayer == None && searchStartTimes == map[]
      ensures waitTimes == [] && gamesCompletedToday == 0 && lastResetDate == today && rooms == map[]
    {
      connected, waitingPlayer, searchStartTimes := {}, None, map[];
      waitTimes, gamesCompletedToday, lastResetDate, rooms := [], 0, today, map[];
    }

    /** A new socket is admitted; nothing else happens on connection. */
    method Connect(sid: SocketId)
      requires Valid() && sid !in connected
      modifies this
      ensures Valid() && connected == old(connected) + {sid}
      ensures waitingPlayer == old(waitingPlayer) && searchStartTimes == old(searchStartTimes)
      ensures waitTimes == old(waitTimes) && gamesCompletedToday == old(gamesCompletedToday)
      ensures lastResetDate == old(lastResetDate) && rooms == old(rooms)
    {
      connected := connected + {sid};
    }

    /** `SEARCH_GAME` from `sid` at time `now`; `gameId` names the game a
        pairing would create. */
    method SearchGame(sid: SocketId, username: string, now: int, gameId: GameId) returns (out: seq<Message>)
      requires Valid() && sid in connected
      modifies this
      ensures Valid()
      ensures connected == old(connected)
      ensures gamesCompletedToday == old(gamesCompletedToday) && lastResetDate == old(lastResetDate)
      // Empty slot: the caller waits.
      ensures old(waitingPlayer) == None ==>
        && waitingPlayer == Some(Player(sid, username, sid))
        && searchStartTimes == old(searchStartTimes)[sid := now]
        && waitTimes == old(waitTimes) && rooms == old(rooms) && out == []
      // The caller is the one waiting: only its start time is renewed.
      ensures old(waitingPlayer).Some? && old(waitingPlayer).value.socketId == sid ==>
        && waitingPlayer == old(waitingPlayer)
        && searchStartTimes == old(searchStartTimes)[sid := now]
        && waitTimes == old(waitTimes) && rooms == old(rooms) && out == []
      // Someone else waits: pair them, the waiting player as White.
      ensures old(waitingPlayer).Some? && old(waitingPlayer).value.socketId != sid ==>
        var white := old(waitingPlayer).value;
        && waitingPlayer == None
        && waitTimes == PushWaitTime(old(waitTimes), WaitSample(old(searchStartTimes), white.socketId, now))
        && searchStartTimes == old(searchStartTimes) - {sid, white.socketId}
        && rooms == old(rooms)[gameId := old(GameRoom(gameId)) + {white.socketId, sid}]
        && out == [Message(white.socketId, GameFound(gameId, White, username, MockElo)),
                   Message(sid, GameFound(gameId, Black, white.username, MockElo))]
    {
      out := [];
      searchStartTimes := searchStartTimes[sid := now];
      match waitingPlayer {
        case Some(white) =>
          if white.socketId == sid {
            return;
          }
          var waitTime := WaitSample(searchStartTimes, white.socketId, now);
          waitTimes := PushWaitTime(waitTimes, waitTime);
          searchStartTimes := searchStartTimes - {sid};
          searchStartTimes := searchStartTimes - {white.socketId};
          assert searchStartTimes == old(searchStartTimes) - {sid, white.socketId};
          var black := Player(sid, username, sid);
          // Both sockets are connected, so both joins take effect.
          var room := GameRoom(gameId) + {white.socketId};
          room := room + {black.socketId};
          assert room == old(GameRoom(gameId)) + {white.socketId, sid};
          rooms := rooms[gameId := room];
          out := [Message(white.socketId, GameFound(gameId, White, black.username, MockElo)),
                  Message(black.socketId, GameFound(gameId, Black, white.username, MockElo))];
          waitingPlayer := None;
        case None =>
          waitingPlayer := Some(Player(sid, username, sid));
      }
    }

    /** `MAKE_MOVE`: the move goes, unchanged, to every other member of the
        game's room. Whether the sender belongs to the room is not checked. */
    method MakeMove(sid: SocketId, gameId: GameId, move: string, nextTurn: Color, pgn: Option<string>)
      returns (out: seq<Message>)
      ensures Recipients(out) == Room(gameId) - {sid} && |out| == |Room(gameId) - {sid}|
      ensures OnePerRecipient(out, OpponentMove(move, nextTurn, pgn))
    {
      out := Fanout(Room(gameId) - {sid}, OpponentMove(move, nextTurn, pgn));
    }

    /** `GAME_OVER`: count a completed game and relay the payload to every
        other member of the room. Every report counts, repeated or not. */
    method ReportGameOver(sid: SocketId, data: GameOverData) returns (out: seq<Message>)
      requires Valid()
      modifies this
      ensures Valid()
      ensures gamesCompletedToday == old(gamesCompletedToday) + 1
      ensures Recipients(out) == Room(data.gameId) - {sid} && |out| == |Room(data.gameId) - {sid}|
      ensures OnePerRecipient(out, GameOver(data))
      ensures connected == old(connected) && waitingPlayer == old(waitingPlayer)
      ensures searchStartTimes == old(searchStartTimes) && waitTimes == old(waitTimes)
      ensures lastResetDate == old(lastResetDate) && rooms == old(rooms)
    {
      gamesCompletedToday := gamesCompletedToday + 1;
      out := Fanout(Room(data.gameId) - {sid}, GameOver(data));
    }

    /** `disconnect`: forget the socket's search, free the slot if it was
        the one waiting, and (as the transport does) take it out of every
        room. Nothing is sent. */
    method Disconnect(sid: SocketId)
      requires Valid() && sid in connected
      modifies this
      ensures Valid()
      ensures connected == old(connected) - {sid}
      ensures searchStartTimes == old(searchStartTimes) - {sid}
      ensures waitingPlayer == if old(waitingPlayer).Some? && old(waitingPlayer).value.socketId == sid
                               then None else old(waitingPlayer)
      ensures rooms.Keys == old(rooms).Keys
      ensures forall g :: g in rooms ==> rooms[g] == old(rooms)[g] - {sid}
      ensures waitTimes == old(waitTimes) && gamesCompletedToday == old(gamesCompletedToday)
      ensures lastResetDate == old(lastResetDate)
    {
      searchStartTimes := searchStartTimes - {sid};
      if waitingPlayer.Some? && waitingPlayer.value.socketId == sid {
        waitingPlayer := None;
      }
      connected := connected - {sid};
      rooms := map g | g in rooms :: rooms[g] - {sid};
    }

    /** The minute tick: a new date string resets the day's counter. */
    method DailyReset(today: string)
      requires Valid()
      modifies this
      ensures Valid()
      ensures today != old(lastResetDate) ==> gamesCompletedToday == 0 && lastResetDate == today
      ensures today == old(lastResetDate) ==>
        gamesCompletedToday == old(gamesCompletedToday) && lastResetDate == old(lastResetDate)
      ensures connected == old(connected) && waitingPlayer == old(waitingPlayer)
      ensures searchStartTimes == old(searchStartTimes) && waitTimes == old(waitTimes) && rooms == old(rooms)
    {
      if today != lastResetDate {
        gamesCompletedToday := 0;
        lastResetDate := today;
      }
    }

    /** The five-second tick: the snapshot goes to every connected socket. */
    method BroadcastStats() returns (out: seq<Message>)
      ensures Recipients(out) == connected && |out| == |connected|
      ensures OnePerRecipient(out, LobbyStats(|connected|, gamesCompletedToday, AverageWait(waitTimes)))
    {
      out := Fanout(connected, Snapshot());
    }
  }

  /** Two players search one after the other, the first moves and later
      resigns twice: the pairing, the relay and the counter as seen from
      outside the server. */
  method MatchScenario(a: SocketId, b: SocketId, nameA: string, nameB: string,
                       t0: int, t1: int, g: GameId, fen: string, today: string)
    returns (found: seq<Message>, moved: seq<Message>, completed: nat, samples: seq<int>)
    requires a != b && t0 != 0
    ensures found == [Message(a, GameFound(g, White, nameB, MockElo)),
                      Message(b, GameFound(g, Black, nameA, MockElo))]
    ensures moved == [Message(b, OpponentMove(fen, Black, None))]
    ensures completed == 2
    ensures samples == [RoundedSeconds(t1 - t0)]
  {
    var server := new LobbyServer(today);
    server.Connect(a);
    server.Connect(b);
    var none := server.SearchGame(a, nameA, t0, g);
    found := server.SearchGame(b, nameB, t1, g);
    assert server.Room(g) == {a, b};
    moved := server.MakeMove(a, g, fen, Black, None);
    assert server.Room(g) - {a} == {b};
    assert moved[0].to in Recipients(moved);
    var relayed := server.ReportGameOver(a, GameOverData(g, "black"));
    relayed := server.ReportGameOver(a, GameOverData(g, "black"));
    completed := server.gamesCompletedToday;
    samples := server.waitTimes;
  }
}
