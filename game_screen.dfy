/** Decision rules of the game and account screens: the `m:ss` clock
    display, the one-second clock tick with its flag fall, who wins on a
    received or sent game-over event, the verified-account check and the
    result tallies of the history. */
module Screen {
  import Quest
  import opened Protocol

  /** Which of the screen's two completion callbacks fires. */
  datatype Callback = OnWin | OnLose

  // ---------------------------------------------------------------------
  // Clock display

  predicate IsDigit(ch: char)
  {
    '0' <= ch <= '9'
  }

  predicate AllDigits(s: string)
  {
    forall i :: 0 <= i < |s| ==> IsDigit(s[i])
  }

  function DigitChar(d: nat): (ch: char)
    requires d < 10
    ensures IsDigit(ch) && ch as int - '0' as int == d
  {
    ('0' as int + d) as char
  }

  /** Decimal notation of `n`, as a number's string conversion writes it. */
  function Decimal(n: nat): string
  {
    if n < 10 then [DigitChar(n)] else Decimal(n / 10) + [DigitChar(n % 10)]
  }

  /** Value of a string of decimal digits. */
  function DigitsValue(s: string): nat
    requires AllDigits(s)
  {
    if s == [] then 0 else DigitsValue(s[..|s| - 1]) * 10 + (s[|s| - 1] as int - '0' as int)
  }

  /** Decimal notation is digits only, and reads back as the number. */
  lemma {:induction false} DecimalValue(n: nat)
    ensures |Decimal(n)| >= 1 && AllDigits(Decimal(n))
    ensures DigitsValue(Decimal(n)) == n
    ensures Decimal(n)[0] == '0' ==> n == 0
  {
    if n >= 10 {
      DecimalValue(n / 10);
      var s := Decimal(n);
      assert s[..|s| - 1] == Decimal(n / 10);
      assert s[0] == Decimal(n / 10)[0];
    }
  }

  /** `padStart(2, '0')` on the decimal notation of a number below 100. */
  function Pad2(n: nat): (s: string)
    requires n < 100
    ensures |s| == 2 && AllDigits(s) && DigitsValue(s) == n
  {
    var d := Decimal(n);
    DecimalValue(n);
    if n < 10 then
      assert DigitsValue(['0'] + d) == n by {
        assert (['0'] + d)[..1] == ['0'];
      }
      ['0'] + d
    else
      assert n / 10 < 10;
      d
  }

  /** `formatTime`: minutes, a colon, and the seconds in two digits. */
  function FormatTime(seconds: nat): (r: string)
    ensures |r| >= 4 && r[|r| - 3] == ':'
    ensures AllDigits(r[..|r| - 3]) && AllDigits(r[|r| - 2..])
    ensures DigitsValue(r[|r| - 2..]) < 60
    ensures DigitsValue(r[..|r| - 3]) * 60 + DigitsValue(r[|r| - 2..]) == seconds
    ensures |r| == 4 || r[0] != '0'
  {
    var m := Decimal(seconds / 60);
    var ss := Pad2(seconds % 60);
    DecimalValue(seconds / 60);
    var r := m + [':'] + ss;
    assert r[..|r| - 3] == m;
    assert r[|r| - 2..] == ss;
    assert r[0] == m[0];
    r
  }

  /** Reading a displayed clock back: `m:ss` with the minutes written
      without leading zeros and two seconds digits below 60. */
  function ParseTime(s: string): (r: Option<nat>)
  {
    if && |s| >= 4 && s[|s| - 3] == ':' && (|s| == 4 || s[0] != '0')
       && AllDigits(s[..|s| - 3]) && AllDigits(s[|s| - 2..]) && DigitsValue(s[|s| - 2..]) < 60
    then
      Some(DigitsValue(s[..|s| - 3]) * 60 + DigitsValue(s[|s| - 2..]))
    else
      None
  }

  /** The display is lossless: the number of seconds can be read back. */
  lemma FormatTimeRoundTrip(seconds: nat)
    ensures ParseTime(FormatTime(seconds)) == Some(seconds)
  {
  }

  /** Digits without a leading zero are the decimal notation of their value. */
  lemma {:induction false} DecimalOfDigits(s: string)
    requires |s| >= 1 && AllDigits(s) && (|s| == 1 || s[0] != '0')
    ensures Decimal(DigitsValue(s)) == s
    ensures |s| >= 2 ==> DigitsValue(s) >= 10
  {
    if |s| >= 2 {
      var p := s[..|s| - 1];
      var d := s[|s| - 1] as int - '0' as int;
      assert p[0] == s[0];
      DecimalOfDigits(p);
      var v := DigitsValue(s);
      var pv := DigitsValue(p);
      assert pv != 0 by {
        if |p| == 1 {
          assert pv == p[0] as int - '0' as int;
        }
      }
      assert v == pv * 10 + d && 0 <= d < 10;
      assert v / 10 == pv && v % 10 == d;
      assert [DigitChar(d)] == [s[|s| - 1]];
      assert s == p + [s[|s| - 1]];
    } else {
      assert DigitsValue(s) == s[0] as int - '0' as int;
      assert s == [s[0]];
    }
  }

  /** Two digits are the padded notation of their value. */
  lemma Pad2OfDigits(s: string)
    requires |s| == 2 && AllDigits(s)
    ensures DigitsValue(s) < 100 && Pad2(DigitsValue(s)) == s
  {
    var v := DigitsValue(s);
    var hi, lo := s[0] as int - '0' as int, s[1] as int - '0' as int;
    assert s[..1] == [s[0]] && s[..1][..0] == [];
    assert DigitsValue(s[..1]) == hi;
    assert v == hi * 10 + lo;
    if s[0] == '0' {
      assert v == lo && Decimal(v) == [s[1]];
      assert s == ['0'] + [s[1]];
    } else {
      DecimalOfDigits(s);
    }
  }

  /** Conversely, every string that reads as a clock is the display of what
      it reads as: the notation is canonical. */
  lemma ParseTimeFormats(s: string)
    requires ParseTime(s).Some?
    ensures FormatTime(ParseTime(s).value) == s
  {
    var m, ss := s[..|s| - 3], s[|s| - 2..];
    var n := ParseTime(s).value;
    assert m[0] == s[0];
    DecimalOfDigits(m);
    Pad2OfDigits(ss);
    var mv, sv := DigitsValue(m), DigitsValue(ss);
    assert n == mv * 60 + sv && sv < 60;
    assert n / 60 == mv && n % 60 == sv;
    assert s == m + [':'] + ss;
  }

  // ---------------------------------------------------------------------
  // Game over

  /** On a received `GAME_OVER` event the player wins exactly when the
      reported winner is the player's own colour. */
  function GameOverCallback(winner: string, me: Color): (cb: Callback)
    ensures cb == OnWin <==> winner == ColorName(me)
  {
    if winner == ColorName(me) then OnWin else OnLose
  }

  /** The winner sent when the player resigns: the other colour. */
  function ResignWinner(me: Color): (w: string)
    ensures w != ColorName(me) && (w == "white" || w == "black")
  {
    ColorName(Opposite(me))
  }

  /** A resignation makes the opponent, who receives it, the winner; the
      resigner's own colour would read it as a loss. */
  lemma ResignationDecides(me: Color)
    ensures GameOverCallback(ResignWinner(me), Opposite(me)) == OnWin
    ensures GameOverCallback(ResignWinner(me), me) == OnLose
  {
  }

  /** A winner that names neither colour is a loss for both players. */
  lemma UnknownWinnerLosesForBoth(winner: string)
    requires winner != "white" && winner != "black"
    ensures GameOverCallback(winner, White) == OnLose && GameOverCallback(winner, Black) == OnLose
  {
  }

  /** The callback a flag fall on `fallen`'s clock triggers for `me`. */
  function FlagCallback(fallen: Color, me: Color): (cb: Callback)
    ensures cb == OnLose <==> me == fallen
  {
    if me == fallen then OnLose else OnWin
  }

  /** On a flag fall the two screens disagree on nothing: one player wins,
      the other loses. */
  lemma FlagFallOneWinner(fallen: Color)
    ensures FlagCallback(fallen, White) != FlagCallback(fallen, Black)
    ensures FlagCallback(fallen, Opposite(fallen)) == OnWin
  {
  }

  /** Ten minutes per side. */
  const StartSeconds := 600

  /** The game screen's clocks. The interval runs only while the game is not
      over; `Tick` is one firing of it. */
  class Clock {
    var whiteTime: int
    var blackTime: int
    var activeColor: Color
    var isGameOver: bool
    const playerColor: Color

    ghost predicate Valid()
      reads this
    {
      0 <= whiteTime <= StartSeconds && 0 <= blackTime <= StartSeconds
    }

    function Remaining(c: Color): int
      reads this
    {
      match c
      case White => whiteTime
      case Black => blackTime
    }

    constructor (playerColor: Color)
      ensures Valid() && this.playerColor == playerColor
      ensures whiteTime == StartSeconds && blackTime == StartSeconds
      ensures activeColor == White && !isGameOver
    {
      this.playerColor := playerColor;
      whiteTime, blackTime := StartSeconds, StartSeconds;
      activeColor := White;
      isGameOver := false;
    }

    /** One second passes on the active clock. At one second or less the
        flag falls: the clock shows zero, the game is over and the owner of
        that clock loses. */
    method Tick() returns (cb: Option<Callback>)
      requires Valid()
      modifies this
      ensures Valid()
      ensures activeColor == old(activeColor)
      ensures old(isGameOver) ==> cb == None && unchanged(this)
      ensures !old(isGameOver) ==>
        var c := old(activeColor);
        && Remaining(Opposite(c)) == old(Remaining(Opposite(c)))
        && (if old(Remaining(c)) <= 1
            then Remaining(c) == 0 && isGameOver && cb == Some(FlagCallback(c, playerColor))
            else Remaining(c) == old(Remaining(c)) - 1 && !isGameOver && cb == None)
    {
      cb := None;
      if isGameOver {
        return;
      }
      if activeColor == White {
        if whiteTime <= 1 {
          isGameOver := true;
          cb := Some(if playerColor == White then OnLose else OnWin);
          whiteTime := 0;
        } else {
          whiteTime := whiteTime - 1;
        }
      } else {
        if blackTime <= 1 {
          isGameOver := true;
          cb := Some(if playerColor == Black then OnLose else OnWin);
          blackTime := 0;
        } else {
          blackTime := blackTime - 1;
        }
      }
    }

    /** A move made or received hands the clock to `nextTurn`. */
    method SetTurn(nextTurn: Color)
      modifies this
      ensures activeColor == nextTurn
      ensures whiteTime == old(whiteTime) && blackTime == old(blackTime) && isGameOver == old(isGameOver)
    {
      activeColor := nextTurn;
    }

    /** A received `GAME_OVER` event ends the game, even one already over. */
    method ReceiveGameOver(winner: string) returns (cb: Callback)
      modifies this
      ensures isGameOver
      ensures cb == OnWin <==> winner == ColorName(playerColor)
      ensures whiteTime == old(whiteTime) && blackTime == old(blackTime) && activeColor == old(activeColor)
    {
      isGameOver := true;
      cb := GameOverCallback(winner, playerColor);
    }
  }

  // ---------------------------------------------------------------------
  // Account screen

  /** ASCII upper case to lower case; other characters are kept. */
  function LowerChar(ch: char): char
  {
    if 'A' <= ch <= 'Z' then (ch as int - 'A' as int + 'a' as int) as char else ch
  }

  function Lower(s: string): (r: string)
    ensures |r| == |s| && forall i :: 0 <= i < |s| ==> r[i] == LowerChar(s[i])
  {
    if s == [] then [] else [LowerChar(s[0])] + Lower(s[1..])
  }

  /** The test accounts shown as verified. */
  const VerifiedAccounts: seq<string> := ["oliver", "marlon"]

  /** Verified means: one of the two names, with any letters capitalised. */
  function IsVerified(name: string): (v: bool)
    ensures v <==> SpellsIgnoringCase(name, "oliver") || SpellsIgnoringCase(name, "marlon")
  {
    LowerEqualsIff(name, "oliver");
    LowerEqualsIff(name, "marlon");
    Lower(name) in VerifiedAccounts
  }

  /** `name` spells `word` (lower-case letters) in any mix of cases. */
  predicate SpellsIgnoringCase(name: string, word: string)
  {
    |name| == |word| &&
    forall i :: 0 <= i < |name| ==> name[i] == word[i] || name[i] as int == word[i] as int - 'a' as int + 'A' as int
  }

  /** Lower-casing a name gives a listed account exactly when the name
      spells it with any letters capitalised. */
  lemma LowerEqualsIff(name: string, word: string)
    requires word in VerifiedAccounts
    ensures Lower(name) == word <==> SpellsIgnoringCase(name, word)
  {
    var low := Lower(name);
    if SpellsIgnoringCase(name, word) {
      assert forall i :: 0 <= i < |name| ==> low[i] == word[i];
    }
    if low == word {
      forall i | 0 <= i < |name|
        ensures name[i] == word[i] || name[i] as int == word[i] as int - 'a' as int + 'A' as int
      {
        assert LowerChar(name[i]) == word[i];
      }
    }
  }

  /** Number of history entries with result `res`. */
  function Count(history: seq<Quest.GameRecord>, res: Quest.GameResult): (n: nat)
    ensures n <= |history|
  {
    if history == [] then 0 else (if history[0].result == res then 1 else 0) + Count(history[1..], res)
  }

  /** Every game is a win, a loss or a draw, so the tallies add up to the history's length. */
  lemma {:induction false} TalliesCoverHistory(history: seq<Quest.GameRecord>)
    ensures Count(history, Quest.Win) + Count(history, Quest.Loss) + Count(history, Quest.Draw) == |history|
  {
    if history != [] {
      TalliesCoverHistory(history[1..]);
    }
  }

  /** Saving a game adds one to the tally of its result and nothing to the others. */
  lemma SaveGameTally(l: Quest.Ledger, rec: Quest.GameRecord, res: Quest.GameResult)
    ensures Count(Quest.Saved(l, rec).history, res) == Count(l.history, res) + (if rec.result == res then 1 else 0)
  {
    var h := Quest.Saved(l, rec).history;
    assert h[1..] == l.history;
  }

  /** The end-of-game bookkeeping of the page: count the game towards the
      daily quest, then save it with the result the callback names. A
      resignation is saved as a loss. */
  method FinishGame(games: Quest.GamesProvider, cb: Callback, opponentName: string, pgn: string,
                    id: string, date: string, today: string)
    modifies games
    ensures games.State() ==
      Quest.Saved(Quest.Incremented(old(games.State()), today),
                  Quest.GameRecord(id, date, opponentName, if cb == OnWin then Quest.Win else Quest.Loss, pgn,
                                   1200, if cb == OnWin then 16 else -16))
    ensures old(games.StorageSynced()) ==> games.StorageSynced()
  {
    games.IncrementGamesTerm(today);
    if cb == OnWin {
      games.SaveGame(opponentName, Quest.Win, pgn, 1200, 16, id, date);
    } else {
      games.SaveGame(opponentName, Quest.Loss, pgn, 1200, -16, id, date);
    }
  }
}
