/** The client-side daily quest and wallet ledger: games played today, the
    date of the last game, the token balance, tokens earned but not yet
    claimed, and the game history. The browser's key-value storage is
    mirrored by a `Storage` value that the operations write as the client
    does; clocks and random identifiers are parameters. */
module Quest {
  import opened Protocol

  datatype GameResult = Win | Loss | Draw

  datatype GameRecord = GameRecord(
    id: string,
    date: string,
    opponent: string,
    result: GameResult,
    pgn: string,
    opponentElo: int,
    eloChange: int)

  /** The provider's in-memory state. */
  datatype Ledger = Ledger(
    gamesPlayedToday: int,
    lastPlayedDate: Option<string>,
    humBalance: int,
    unclaimedTokens: int,
    history: seq<GameRecord>)

  /** The five storage keys; `None` is a key that is absent. */
  datatype Storage = Storage(
    date: Option<string>,
    games: Option<int>,
    balance: Option<int>,
    unclaimed: Option<int>,
    history: Option<seq<GameRecord>>)

  /** Balance a fresh account starts with. */
  const InitialBalance := 90
  /** The game of the day whose completion earns the reward. */
  const QuestGames := 3
  /** Tokens the daily quest awards. */
  const QuestReward := 3

  const EmptyStorage := Storage(None, None, None, None, None)

  /** Before the storage has been read. */
  function Initial(): (l: Ledger)
    ensures l.gamesPlayedToday == 0 && l.unclaimedTokens == 0 && l.history == []
    ensures l.humBalance == InitialBalance && l.lastPlayedDate == None
  {
    Ledger(0, None, InitialBalance, 0, [])
  }

  /** State after reading the storage on mount; absent keys read as their defaults. */
  function Loaded(st: Storage, today: string): (l: Ledger)
    ensures l.lastPlayedDate == Some(today)
    ensures l.humBalance == st.balance.GetOr(InitialBalance)
    ensures l.history == st.history.GetOr([])
    ensures st.date == Some(today) ==>
      l.gamesPlayedToday == st.games.GetOr(0) && l.unclaimedTokens == st.unclaimed.GetOr(0)
    ensures st.date != Some(today) ==> l.gamesPlayedToday == 0 && l.unclaimedTokens == 0
  {
    var balance := st.balance.GetOr(InitialBalance);
    var history := st.history.GetOr([]);
    if st.date != Some(today) then
      Ledger(0, Some(today), balance, 0, history)
    else
      Ledger(st.games.GetOr(0), st.date, balance, st.unclaimed.GetOr(0), history)
  }

  /** `incrementGamesTerm`: one more game played on `today`. */
  function Incremented(l: Ledger, today: string): (r: Ledger)
    ensures r.lastPlayedDate == Some(today)
    ensures r.humBalance == l.humBalance && r.history == l.history
  {
    if l.lastPlayedDate != Some(today) then
      l.(lastPlayedDate := Some(today), gamesPlayedToday := 1, unclaimedTokens := 0)
    else
      var n := l.gamesPlayedToday + 1;
      l.(gamesPlayedToday := n, unclaimedTokens := if n == QuestGames then QuestReward else l.unclaimedTokens)
  }

  /** `claimReward`: move every unclaimed token into the balance. */
  function Claimed(l: Ledger): (r: Ledger)
    ensures r.humBalance + r.unclaimedTokens == l.humBalance + l.unclaimedTokens
    ensures r.unclaimedTokens == if l.unclaimedTokens > 0 then 0 else l.unclaimedTokens
    ensures r.gamesPlayedToday == l.gamesPlayedToday && r.lastPlayedDate == l.lastPlayedDate
    ensures r.history == l.history
  {
    if l.unclaimedTokens > 0 then
      l.(humBalance := l.humBalance + l.unclaimedTokens, unclaimedTokens := 0)
    else
      l
  }

  /** `saveGame`: the new record goes in front of the history. */
  function Saved(l: Ledger, rec: GameRecord): (r: Ledger)
    ensures |r.history| == |l.history| + 1
    ensures r.history[0] == rec && r.history[1..] == l.history
    ensures r.(history := l.history) == l
  {
    l.(history := [rec] + l.history)
  }

  /** `resetAccount`: the in-memory part; the last played date is kept. */
  function Reset(l: Ledger): (r: Ledger)
    ensures r.gamesPlayedToday == 0 && r.unclaimedTokens == 0 && r.history == []
    ensures r.humBalance == InitialBalance && r.lastPlayedDate == l.lastPlayedDate
  {
    l.(gamesPlayedToday := 0, humBalance := InitialBalance, unclaimedTokens := 0, history := [])
  }

  /** What a reload would read back from `st`, key by key, agrees with `l`;
      the date key is either absent (after a reset) or the last played date. */
  predicate Synced(l: Ledger, st: Storage)
  {
    && st.games.GetOr(0) == l.gamesPlayedToday
    && st.balance.GetOr(InitialBalance) == l.humBalance
    && st.unclaimed.GetOr(0) == l.unclaimedTokens
    && st.history.GetOr([]) == l.history
    && (st.date == None || st.date == l.lastPlayedDate)
  }

  /** Reloading on the day of the last game restores the state exactly. */
  lemma ReloadSameDay(l: Ledger, st: Storage, today: string)
    requires Synced(l, st) && st.date == Some(today)
    ensures Loaded(st, today) == l
  {
  }

  /** Reloading on another day keeps balance and history and starts a fresh quest. */
  lemma ReloadNewDay(l: Ledger, st: Storage, today: string)
    requires Synced(l, st) && st.date != Some(today)
    ensures Loaded(st, today) == l.(gamesPlayedToday := 0, unclaimedTokens := 0, lastPlayedDate := Some(today))
  {
  }

  /** A reset empties the storage, and the page reload that follows it
      starts from the defaults, whatever the day. */
  lemma ResetThenReload(l: Ledger, today: string)
    ensures Synced(Reset(l), EmptyStorage)
    ensures Loaded(EmptyStorage, today) == Reset(l).(lastPlayedDate := Some(today))
  {
  }

  /** Claiming twice in a row is claiming once. */
  lemma ClaimIdempotent(l: Ledger)
    ensures Claimed(Claimed(l)) == Claimed(l)
  {
  }

  /** Quest bookkeeping the operations keep: before the third game of the day
      there is nothing to claim. */
  predicate QuestInvariant(l: Ledger)
  {
    l.gamesPlayedToday < QuestGames ==> l.unclaimedTokens == 0
  }

  /** Operations of one day; a reset is not among them. */
  datatype Action = Play | Claim | Save(rec: GameRecord)

  function Step(l: Ledger, a: Action, today: string): Ledger
  {
    match a
    case Play => Incremented(l, today)
    case Claim => Claimed(l)
    case Save(rec) => Saved(l, rec)
  }

  function Run(l: Ledger, acts: seq<Action>, today: string): Ledger
    decreases |acts|
  {
    if acts == [] then l else Run(Step(l, acts[0], today), acts[1..], today)
  }

  function Plays(acts: seq<Action>): nat
  {
    if acts == [] then 0 else (if acts[0] == Play then 1 else 0) + Plays(acts[1..])
  }

  /** Tokens owned, claimed or not. */
  function Wealth(l: Ledger): int
  {
    l.humBalance + l.unclaimedTokens
  }

  /** Within one day the tokens owned grow by exactly the quest reward when
      the count of games crosses the third game, and otherwise not at all:
      the reward is granted at most once a day, and claiming only moves
      tokens. */
  lemma {:induction false} DayRun(l: Ledger, acts: seq<Action>, today: string)
    decreases |acts|
    requires l.lastPlayedDate == Some(today)
    requires QuestInvariant(l)
    ensures Run(l, acts, today).gamesPlayedToday == l.gamesPlayedToday + Plays(acts)
    ensures Run(l, acts, today).lastPlayedDate == Some(today)
    ensures QuestInvariant(Run(l, acts, today))
    ensures Wealth(Run(l, acts, today)) ==
            Wealth(l) + (if l.gamesPlayedToday < QuestGames <= l.gamesPlayedToday + Plays(acts) then QuestReward else 0)
  {
    if acts != [] {
      var next := Step(l, acts[0], today);
      assert QuestInvariant(next);
      DayRun(next, acts[1..], today);
    }
  }

  /** The first game of a new day starts the count again and forfeits
      tokens left unclaimed from an earlier day. */
  lemma FirstGameOfDay(l: Ledger, today: string)
    requires l.lastPlayedDate != Some(today)
    ensures Incremented(l, today).gamesPlayedToday == 1
    ensures Wealth(Incremented(l, today)) == l.humBalance
    ensures QuestInvariant(Incremented(l, today))
  {
  }

  /** The provider component, with its storage. */
  class GamesProvider {
    var gamesPlayedToday: int
    var lastPlayedDate: Option<string>
    var humBalance: int
    var unclaimedTokens: int
    var history: seq<GameRecord>
    var storage: Storage

    function State(): Ledger
      reads this
    {
      Ledger(gamesPlayedToday, lastPlayedDate, humBalance, unclaimedTokens, history)
    }

    predicate StorageSynced()
      reads this
    {
      Synced(State(), storage)
    }

    /** The component before its mount effect: defaults in memory, whatever
        the browser holds in storage. */
    constructor (saved: Storage)
      ensures State() == Initial() && storage == saved
    {
      gamesPlayedToday, lastPlayedDate, humBalance, unclaimedTokens, history := 0, None, InitialBalance, 0, [];
      storage := saved;
    }

    /** The mount effect: read the storage, resetting the daily fields on a new day. */
    method Mount(today: string)
      modifies this
      ensures State() == Loaded(old(storage), today)
      ensures storage == if old(storage).date != Some(today)
                         then old(storage).(date := Some(today), games := Some(0), unclaimed := Some(0))
                         else old(storage)
      ensures StorageSynced()
    {
      var savedDate := storage.date;
      var savedGames := storage.games.GetOr(0);
      var savedBalance := storage.balance.GetOr(InitialBalance);
      var savedUnclaimed := storage.unclaimed.GetOr(0);
      var savedHistory := storage.history.GetOr([]);
      if savedDate != Some(today) {
        gamesPlayedToday := 0;
        lastPlayedDate := Some(today);
        storage := storage.(date := Some(today), games := Some(0));
        unclaimedTokens := 0;
        storage := storage.(unclaimed := Some(0));
      } else {
        gamesPlayedToday := savedGames;
        lastPlayedDate := savedDate;
        unclaimedTokens := savedUnclaimed;
      }
      humBalance := savedBalance;
      history := savedHistory;
    }

    method IncrementGamesTerm(today: string)
      modifies this
      ensures State() == Incremented(old(State()), today)
      ensures storage == if old(lastPlayedDate) != Some(today)
                         then old(storage).(date := Some(today), games := Some(1), unclaimed := Some(0))
                         else if old(gamesPlayedToday) + 1 == QuestGames
                         then old(storage).(games := Some(QuestGames), unclaimed := Some(QuestReward))
                         else old(storage).(games := Some(old(gamesPlayedToday) + 1))
      ensures old(StorageSynced()) ==> StorageSynced()
    {
      if lastPlayedDate != Some(today) {
        lastPlayedDate := Some(today);
        gamesPlayedToday := 1;
        unclaimedTokens := 0;
        storage := storage.(date := Some(today), games := Some(1), unclaimed := Some(0));
        return;
      }
      var newCount := gamesPlayedToday + 1;
      gamesPlayedToday := newCount;
      storage := storage.(games := Some(newCount));
      if newCount == QuestGames {
        unclaimedTokens := QuestReward;
        storage := storage.(unclaimed := Some(QuestReward));
      }
    }

    method ClaimReward()
      modifies this
      ensures State() == Claimed(old(State()))
      ensures storage == if old(unclaimedTokens) > 0
                         then old(storage).(balance := Some(old(humBalance) + old(unclaimedTokens)), unclaimed := Some(0))
                         else old(storage)
      ensures old(StorageSynced()) ==> StorageSynced()
    {
      if unclaimedTokens > 0 {
        var newBalance := humBalance + unclaimedTokens;
        humBalance := newBalance;
        unclaimedTokens := 0;
        storage := storage.(balance := Some(newBalance), unclaimed := Some(0));
      }
    }

    /** `id` and `date` stand for the random identifier and the formatted
        date the client generates. */
    method SaveGame(opponent: string, result: GameResult, pgn: string, opponentElo: int, eloChange: int,
                    id: string, date: string)
      modifies this
      ensures State() == Saved(old(State()), GameRecord(id, date, opponent, result, pgn, opponentElo, eloChange))
      ensures storage == old(storage).(history := Some(history))
      ensures old(StorageSynced()) ==> StorageSynced()
    {
      var newRecord := GameRecord(id, date, opponent, result, pgn, opponentElo, eloChange);
      var newHistory := [newRecord] + history;
      history := newHistory;
      storage := storage.(history := Some(newHistory));
    }

    method ResetAccount()
      modifies this
      ensures State() == Reset(old(State()))
      ensures storage == EmptyStorage
      ensures StorageSynced()
    {
      gamesPlayedToday := 0;
      humBalance := InitialBalance;
      unclaimedTokens := 0;
      history := [];
      storage := EmptyStorage;
    }
  }
}
