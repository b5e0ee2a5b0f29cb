# Human Chess: matchmaking, relay and daily-quest model

This project models the core of a two-player timed chess app. The app has four parts:

- **The lobby server** (`server.dfy`, module `Lobby`). It keeps one waiting slot. A search either fills the slot or pairs the caller with the waiting player. The waiting player plays White, the caller plays Black, and both sockets join a room named by the game id. Moves and game-over reports are relayed to the other room members. The server keeps the last 20 wait times and a completed-games counter that resets when the date string changes. Every 5 seconds it broadcasts a stats snapshot to all connected sockets.
- **The client's quest and wallet ledger** (`ledger.dfy`, module `Quest`). It tracks games played today, the last played date, the token balance, unclaimed tokens and the game history. The browser storage is mirrored as a `Storage` value.
- **Rules from the game and account screens** (`game_screen.dfy`, module `Screen`). These are the `m:ss` clock display, the one-second clock tick with its flag fall, the win/lose decision on a game-over event, the winner sent on resignation, the verified-account check and the result tallies.
- **`toDests`** (`dests.dfy`, module `Dests`). It groups legal moves by origin square for the board widget.

`protocol.dfy` (module `Protocol`) holds the colours, their names on the wire and an `Option` type. The server and the client share these.

Node runs each socket handler to completion. So each handler is one method of `Lobby.LobbyServer` and changes the state atomically. Some things are passed in as parameters:

- the current time in milliseconds;
- the current date string;
- the new game id;
- the client's random record id and formatted date.

What the server emits comes back as a list of `Message(to, event)` records, one per recipient. Rooms are a map from game id to a set of socket ids. Integer rounding stands for `Math.round`:

- `(ms + 500) / 1000` is the rounded number of seconds;
- `(2 * sum + n) / (2 * n)` is the rounded mean.

For integers these equal `Math.round(x) = floor(x + 1/2)`, because Dafny's division with a positive divisor rounds down.

The code gives fewer guarantees than a match server might be expected to, and the model follows the code:

- `GAME_OVER` is counted on every report. Nothing stops a match from being counted twice.
- The sender of `MAKE_MOVE` or `GAME_OVER` is not checked for room membership.
- A disconnect does not notify the opponent, and matches have no terminal state.
- There is no server-side cancel. The client's Cancel button only changes screens.

## Model

| member | source | states |
|---|---|---|
| `Lobby.RoundedSeconds` | server/server.ts:74 | the result is the number of whole seconds nearest to the milliseconds, with halves rounded up: `1000r - 500 <= ms < 1000r + 500` |
| `Lobby.WaitSample` | server/server.ts:74 | the recorded wait is 0 when the waiting player has no stored start time or a stored 0 (the `||` fallback); otherwise it is its elapsed time rounded to seconds |
| `Lobby.PushWaitTime` | server/server.ts:75-76 | a push never takes a buffer of at most 20 above 20; the new sample is last; below capacity it is appended; at capacity exactly the oldest sample is dropped and the rest keep their order |
| `Lobby.PushAllKeepsNewest` | server/server.ts:75-76 | after any number of pushes the buffer is exactly the newest min(total, 20) samples in arrival order, so after 21 pushes the oldest sample is gone |
| `Lobby.AverageWait` | server/server.ts:46-48 | 0 when there are no samples; otherwise the mean rounded half up: `n(2r - 1) <= 2·sum < n(2r + 1)` |
| `Lobby.AverageWithinSamples` | server/server.ts:46-48 | the published average lies between the smallest and the largest sample |
| `Lobby.SumBounds` | server/server.ts:47 | the sum of samples in `[lo, hi]` lies in `[n·lo, n·hi]` |
| `Lobby.Fanout` | server/server.ts:50-54 | emitting to a set of sockets sends exactly one message to each of them, each carrying the same event, and to nobody else |
| `Lobby.LobbyServer.Snapshot` | server/server.ts:45-48 | `activePlayers` is the number of connected sockets, the counter is today's, and the average is 0 when there are no samples |
| `Lobby.LobbyServer.BroadcastStats` | server/server.ts:44-55 | every connected socket gets one `LOBBY_STATS` message holding the snapshot |
| `Lobby.LobbyServer.constructor` | server/server.ts:26-32 | the server starts with an empty slot, no start times, no samples, a counter of 0 and the start date as the reset date |
| `Lobby.LobbyServer.Connect` | server/server.ts:57-58 | a connection adds the socket to the connected set and changes nothing else |
| `Lobby.LobbyServer.SearchGame` | server/server.ts:60-114 | with an empty slot the caller becomes the waiting player. A repeat search by the waiting socket only renews its start time. Otherwise the pair is made: the waiting player gets White and the caller Black, each with the same game id and the other's name; one sample (the waiting player's wait) is pushed; both start times are deleted; both sockets join the room; the slot is emptied. The invariant (slot holder connected and timed, buffer ≤ 20) is kept |
| `Lobby.LobbyServer.Room` | server/server.ts:96-128 | an emit to room `g` reaches the sockets that joined game `g` and, because the transport gives every socket a room named by its own id, the connected socket whose id is `g`; it never reaches a disconnected socket |
| `Lobby.LobbyServer.MakeMove` | server/server.ts:116-123 | `OPPONENT_MOVE` with the move, next turn and PGN unchanged goes once to each room member other than the sender, whether or not the sender is a member (a game id equal to a connected socket's id also reaches that socket); nothing changes |
| `Lobby.LobbyServer.ReportGameOver` | server/server.ts:125-128 | the counter goes up by exactly one on every report, and the whole payload goes once to each room member other than the sender; nothing else changes |
| `Lobby.LobbyServer.Disconnect` | server/server.ts:130-136 | the socket's start time is deleted; the slot is emptied only if that socket held it; the socket leaves the connected set and every room; samples, counter and date are unchanged; nothing is sent |
| `Lobby.LobbyServer.DailyReset` | server/server.ts:35-41 | the counter becomes 0 and the date is stored only when the date string differs; otherwise nothing changes |
| `Lobby.MatchScenario` | server/server.ts:60-128 | A searches, then B: A gets White against B and B gets Black against A with the same id, and one sample (A's wait) is recorded; A's move reaches B alone; two resignations count two games |
| `Protocol.Opposite` | app/page.tsx:745 | the opposite colour differs from the colour |
| `Protocol.ColorNameInjective` | app/page.tsx:647 | two colours have the same wire name exactly when they are the same colour |
| `Quest.Initial` | app/providers/GamesContext.tsx:30-34 | before the storage is read: 0 games, no date, balance 90, nothing unclaimed, empty history |
| `Quest.Loaded` | app/providers/GamesContext.tsx:37-62 | after mount the last date is today; balance and history are restored (defaults 90 and empty) on any day; games and unclaimed tokens are restored (default 0) when the saved date is today and are 0 otherwise |
| `Quest.ReloadSameDay` | app/providers/GamesContext.tsx:44-61 | when the storage mirrors the state and its date is today, mounting restores the state exactly |
| `Quest.ReloadNewDay` | app/providers/GamesContext.tsx:46-54 | on another day, mounting sets games and unclaimed tokens to 0 and the date to today, and keeps balance and history |
| `Quest.Incremented` | app/providers/GamesContext.tsx:64-87 | the date becomes today; balance and history are untouched |
| `Quest.FirstGameOfDay` | app/providers/GamesContext.tsx:68-76 | the first game of a new day sets the count to 1 and unclaimed tokens to 0, forfeiting tokens left from earlier, and keeps the quest invariant |
| `Quest.DayRun` | app/providers/GamesContext.tsx:78-96 | over any same-day sequence of plays, claims and saves, the count grows by the number of plays and tokens owned (balance + unclaimed) grow by 3 exactly when the count crosses the third game, otherwise by 0: at most one reward a day, none for the 4th and later games |
| `Quest.Claimed` | app/providers/GamesContext.tsx:89-101 | balance + unclaimed is conserved; unclaimed becomes 0 when it was positive and is otherwise unchanged; count, date and history are untouched |
| `Quest.ClaimIdempotent` | app/providers/GamesContext.tsx:90 | a second claim in a row changes nothing |
| `Quest.Saved` | app/providers/GamesContext.tsx:103-112 | the record is prepended: history grows by one, the rest keep their order, nothing else changes |
| `Quest.Reset` | app/providers/GamesContext.tsx:114-118 | games 0, balance 90, unclaimed 0, empty history; the in-memory last date is kept |
| `Quest.ResetThenReload` | app/providers/GamesContext.tsx:114-127 | a reset leaves storage empty and mirroring the state; the reload that follows starts from the defaults with today's date |
| `Quest.GamesProvider.constructor` | app/providers/GamesContext.tsx:30-34 | the component starts from the defaults, whatever the storage holds |
| `Quest.GamesProvider.Mount` | app/providers/GamesContext.tsx:37-62 | the state becomes `Loaded(storage, today)`; on a new day the date, games and unclaimed keys are rewritten; afterwards storage mirrors the state |
| `Quest.GamesProvider.IncrementGamesTerm` | app/providers/GamesContext.tsx:64-87 | the state becomes `Incremented(old, today)`, the written keys are exactly those the client writes, and storage keeps mirroring the state |
| `Quest.GamesProvider.ClaimReward` | app/providers/GamesContext.tsx:89-101 | the state becomes `Claimed(old)`; balance and unclaimed keys are written only when something was claimed |
| `Quest.GamesProvider.SaveGame` | app/providers/GamesContext.tsx:103-112 | the state becomes `Saved(old, record)` with the given id and date; the history key holds the new history |
| `Quest.GamesProvider.ResetAccount` | app/providers/GamesContext.tsx:114-128 | the state becomes `Reset(old)` and every storage key is removed |
| `Screen.FormatTime` | app/page.tsx:700-704 | the display is `m:ss`: the minute digits m and the two second digits ss satisfy `m·60 + ss = seconds` and `ss < 60`, and the minutes have no leading zero unless they are 0 |
| `Screen.FormatTimeRoundTrip` | app/page.tsx:700-704 | reading the display back gives the number of seconds |
| `Screen.ParseTimeFormats` | app/page.tsx:700-704 | conversely, every string that reads as a clock is the display of its value: the notation is canonical, so the display and the number of seconds determine each other |
| `Screen.DecimalOfDigits` | app/page.tsx:703 | digits without a leading zero are the minutes' decimal notation of their value |
| `Screen.Pad2OfDigits` | app/page.tsx:703 | any two digits are the padded seconds of their value |
| `Screen.Pad2` | app/page.tsx:703 | the padded seconds are two digits whose value is the number |
| `Screen.DecimalValue` | app/page.tsx:703 | a number's decimal notation is non-empty, all digits, reads back as the number, and starts with 0 only for 0 |
| `Screen.Clock.constructor` | app/page.tsx:620-623 | both clocks start at 600 s, White to move, the game not over |
| `Screen.Clock.Tick` | app/page.tsx:672-698 | a finished game is untouched. Otherwise only the active colour's clock changes: by exactly 1, or, at 1 or less, to 0 with the game over and the owner of that clock losing |
| `Screen.FlagCallback` | app/page.tsx:676-694 | after a flag fall, a player loses exactly when the fallen clock is the player's own |
| `Screen.FlagFallOneWinner` | app/page.tsx:678-691 | on a flag fall the two players' screens reach opposite outcomes, and the opponent of the fallen side wins |
| `Screen.Clock.SetTurn` | app/page.tsx:660-662 | a move hands the clock to the next colour and leaves times and game-over alone |
| `Screen.Clock.ReceiveGameOver` | app/page.tsx:642-652 | a received game-over ends the game; the player wins exactly when the winner named is the player's own colour |
| `Screen.GameOverCallback` | app/page.tsx:647-651 | on a received game-over the win callback fires exactly when the winner named is the player's own colour; otherwise the lose callback fires |
| `Screen.ResignWinner` | app/page.tsx:745 | the winner sent on resignation is a colour name, and never the resigner's own |
| `Screen.ResignationDecides` | app/page.tsx:745 | the winner sent on resignation is the other colour, which the opponent reads as a win and the resigner's colour as a loss |
| `Screen.UnknownWinnerLosesForBoth` | app/page.tsx:647-651 | a winner naming neither colour reads as a loss on both screens |
| `Screen.IsVerified` | app/page.tsx:40-42 | a name is verified exactly when it spells `oliver` or `marlon` with any letters capitalised |
| `Screen.LowerEqualsIff` | app/page.tsx:41-42 | a lower-cased name equals a listed account exactly when the name spells that account with any letters capitalised |
| `Screen.Lower` | app/page.tsx:42 | lower-casing keeps the length and maps each character on its own |
| `Screen.Count` | app/page.tsx:832-834 | a tally never exceeds the history length |
| `Screen.TalliesCoverHistory` | app/page.tsx:832-834 | wins + losses + draws equals the history length |
| `Screen.SaveGameTally` | app/page.tsx:832-834 | saving a game adds one to the tally of its result and nothing to the others |
| `Screen.FinishGame` | app/page.tsx:78-98 | at game end the quest count is incremented, then the game is saved as a win (+16) on the win callback and as a loss (−16) otherwise, and storage keeps mirroring the state |
| `Dests.ToDests` | app/components/ChessBoard.tsx:152-159 | the keys are exactly the origin squares, in first-occurrence order; each key maps to the non-empty list of its moves' destinations in input order |
| `Dests.OriginsExact` | app/components/ChessBoard.tsx:154-156 | the key order lists each origin square of the input exactly once and nothing else |
| `Dests.DestsEmptyIff` | app/components/ChessBoard.tsx:155-156 | a square's destination list is empty exactly when no move starts there |
| `Dests.MoveListed` | app/components/ChessBoard.tsx:154-156 | every input move's destination is listed under its origin |
| `Dests.ListedIsMove` | app/components/ChessBoard.tsx:154-156 | every listed destination comes from an input move |
| `Dests.SumLengthsIsMoveCount` | app/components/ChessBoard.tsx:154-157 | the list lengths add up to the number of moves |

## Left out

- Transport setup is not modelled: express, http, CORS, `server.listen` and logging. Socket admission is `Connect`, and `Connect` assumes socket ids are unique, as the transport provides.
- Every connected socket is in a room named by its own id. The model adds that room in `Lobby.LobbyServer.Room` instead of storing it, so `io.to(socketId)` in the pairing is a direct message.
- Disconnect removes the socket from every room. The handler does not do this; the transport does. It is modelled because it decides who receives relayed messages.
- Game-id uniqueness is not modelled. The id comes from the clock in the source and is a parameter here, with nothing proved about it. Joining a room whose id is already in use adds both sockets to that room.
- `setInterval` scheduling is not modelled. The two server ticks and the clock tick are methods that their callers invoke.
- Floating-point `Math.round` and division are not modelled. Integer rounding stands in for them and agrees with them on the rounding rule.
- The opponent rating is the constant 1200 that the server sends, and no rating arithmetic exists. The ±16 rating change in history records is carried as data.
- Browser storage is modelled as typed values with absent keys as `None`. String encoding, `parseInt` of hand-edited entries and JSON parsing are not modelled.
- `crypto.randomUUID`, `toLocaleDateString`, `toDateString` and `window.location.reload` are not modelled. Their results are parameters, and the reload is the `ResetThenReload` lemma.
- React state timing is not modelled. Every ledger and clock operation reads the latest state. In the source, two calls from one render see the same snapshot. `FinishGame`'s two calls touch different fields, so it is unaffected.
- `Screen.Lower` only lower-cases the ASCII letters A–Z. Full Unicode `toLowerCase` is not modelled. No other character lower-cases to a letter of `oliver` or `marlon`, so this does not change the verified check.
- The rendering, the tab bar, the onboarding, victory, defeat, lobby and history screens, and the socket provider are UI and connection wiring. They are not modelled.
- chess.js, Chessground and the FEN/PGN board synchronisation are foreign libraries. `toDests` takes the generated moves as its input.
