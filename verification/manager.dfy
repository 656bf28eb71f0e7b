/**
 * The game manager (public/manager.js): the board, the two players and the per-turn context as
 * one object whose methods change them in place. Each method is proved to change the game
 * exactly as the function of the same name in `Rules` says.
 */
module Manager {
  import opened Pieces
  import opened Players
  import opened Boards
  import opened Rules
  import Lists

  class GameManager {
    const board: Board
    const players: seq<Player>
    var currentPlayerIndex: Seat
    var turnStarted: bool
    var turnScore: int
    var turnPocketedCoins: seq<Color>
    var maintainTurn: bool
    var shouldSwitchTurn: bool
    var queenPocketedThisTurn: bool
    var coverTurn: bool
    var pendingQueenCoin: Option<Coin>
    var firstTurn: bool

    /** Two distinct players, white first. */
    ghost predicate Valid()
    {
      |players| == 2 && players[0] != players[1]
      && players[0].color == White && players[1].color == Black
    }

    ghost function State(): Game
      reads this, board, players
      requires Valid()
    {
      Game(board.State(), [players[0].State(), players[1].State()], currentPlayerIndex, turnStarted,
           turnScore, turnPocketedCoins, maintainTurn, shouldSwitchTurn, queenPocketedThisTurn,
           coverTurn, pendingQueenCoin, firstTurn)
    }

    /** The manager as the game's start-up leaves it: constructed, then initialised. */
    constructor ()
      ensures Valid() && fresh(board) && fresh(players[0]) && fresh(players[1])
      ensures State() == InitialGame()
    {
      board := new Board();
      var white := new Player(1, "Player 1", White);
      var black := new Player(2, "Player 2", Black);
      players := [white, black];
      currentPlayerIndex := 0;
      turnStarted := false;
      turnScore := 0;
      turnPocketedCoins := [];
      maintainTurn := false;
      shouldSwitchTurn := false;
      queenPocketedThisTurn := false;
      coverTurn := false;
      pendingQueenCoin := None;
      firstTurn := true;
      new;
      ResetGame();
    }

    function GetCurrentPlayer(): (p: Player)
      reads this
      requires Valid()
      ensures p == players[currentPlayerIndex]
    {
      players[currentPlayerIndex]
    }

    /** The other player, never the current one. */
    function GetOpponentPlayer(): (p: Player)
      reads this
      requires Valid()
      ensures p == players[Opponent(currentPlayerIndex)] && p != GetCurrentPlayer()
    {
      players[Opponent(currentPlayerIndex)]
    }

    // ---------------------------------------------------------------- one player's update, by seat

    /** Adds `points` to the player in `seat` and reads back that player's new score. */
    method AddScoreTo(seat: Seat, points: int) returns (score: int)
      requires Valid()
      modifies players
      ensures State() == AddPoints(old(State()), seat, points)
      ensures score == PlayerAt(State(), seat).score
    {
      if seat == 0 {
        players[0].AddScore(points);
      } else {
        players[1].AddScore(points);
      }
      score := players[seat].GetScore();
    }

    method SetPendingQueenOf(seat: Seat, pending: bool)
      requires Valid()
      modifies players
      ensures State() == SetPending(old(State()), seat, pending)
    {
      if seat == 0 {
        players[0].SetPendingQueen(pending);
      } else {
        players[1].SetPendingQueen(pending);
      }
    }

    method BankFor(seat: Seat, color: Color)
      requires Valid()
      modifies players
      ensures State() == Bank(old(State()), seat, color)
    {
      if seat == 0 {
        players[0].AddPocketedCoin(color);
      } else {
        players[1].AddPocketedCoin(color);
      }
    }

    // ---------------------------------------------------------------- turn changes

    /** The resets of the shot's score and records that every turn change starts with. */
    method ClearTurn()
      requires Valid()
      modifies this, board
      ensures State() == Rules.ClearTurn(old(State()))
    {
      board.ResetScore();
      turnScore := 0;
      turnPocketedCoins := [];
      maintainTurn := false;
      shouldSwitchTurn := false;
      queenPocketedThisTurn := false;
    }

    /** Puts the striker back on its dock, idle and at rest, with the slider on it. */
    method DockStriker()
      requires Valid()
      modifies board
      ensures State() == old(State()).(board := Dock(old(State()).board))
    {
      board.SetStrikerState(Idle);
      board.striker := Docked;
      board.sliderX := StrikerDefaultX;
      board.strikerResetTimer := 0.0;
    }

    method SwitchTurn()
      requires Valid()
      modifies this, board, players
      ensures State() == Rules.SwitchTurn(old(State()))
    {
      PassSeat();
      ClearTurn();
      DropPendingQueen();
      turnStarted := false;
    }

    /** The start of `switchTurn`: the next seat, and the board turned to face it. */
    method PassSeat()
      requires Valid()
      modifies this, board
      ensures var g := old(State());
              State() == g.(current := Opponent(g.current), board := g.board.(halfTurns := g.board.halfTurns + 1))
    {
      currentPlayerIndex := Opponent(currentPlayerIndex);
      board.RotateBoard();
    }

    /** The end of `switchTurn`: no cover shot, no queen held back, and the new player owes none. */
    method DropPendingQueen()
      requires Valid()
      modifies this, players
      ensures var g := old(State()).(coverTurn := false, pendingQueenCoin := None);
              State() == SetPending(g, g.current, false)
    {
      coverTurn := false;
      pendingQueenCoin := None;
      SetPendingQueenOf(currentPlayerIndex, false);
    }

    /** Also the body of `initialize`, which is the same sequence of assignments. */
    method ResetGame()
      requires Valid()
      modifies this, board, players
      ensures State() == Rules.ResetGame(old(State()))
    {
      board.Initialize();
      players[0].ResetScore();
      players[1].ResetScore();
      currentPlayerIndex := 0;
      turnStarted := false;
      turnScore := 0;
      turnPocketedCoins := [];
      maintainTurn := false;
      shouldSwitchTurn := false;
      queenPocketedThisTurn := false;
      coverTurn := false;
      pendingQueenCoin := None;
      firstTurn := true;
    }

    method StartCoverTurn()
      requires Valid()
      modifies this, board
      ensures State() == Rules.StartCoverTurn(old(State()))
    {
      ClearTurn();
      coverTurn := true;
      DockStriker();
      turnStarted := false;
    }
    // ---------------------------------------------------------------- one pocket record

    /** The consumed coin leaves the board (its sprite is destroyed and it is spliced out). */
    method RemoveCoin(index: nat)
      requires Valid() && index < |board.coins|
      modifies board
      ensures State() == old(State()).(board := RemoveAt(old(State()).board, index))
    {
      board.coins := Lists.Splice(board.coins, index);
    }

    /** The consumed coin goes back to the centre, at rest and no longer captured. */
    method CentreCoin(index: nat)
      requires Valid() && index < |board.coins|
      modifies board
      ensures State() == old(State()).(board := CentreAt(old(State()).board, index))
    {
      board.MoveCoinToCenter(index);
    }

    /** The shot scored: the turn's score goes up and the player keeps the turn. */
    method ScoreShot()
      requires Valid()
      modifies this
      ensures State() == Scored(old(State()))
    {
      turnScore := turnScore + 1;
      maintainTurn := true;
    }

    /** Holds the queen back for the player in `seat` until they cover it. */
    method HoldQueen(seat: Seat, coin: Coin)
      requires Valid()
      modifies this, players
      ensures State() == QueenHeld(old(State()), seat, coin)
    {
      queenPocketedThisTurn := true;
      SetPendingQueenOf(seat, true);
      pendingQueenCoin := Some(coin);
    }

    /** Lets go of the held-back queen: no cover is owed any more. */
    method ReleaseQueen(seat: Seat)
      requires Valid()
      modifies this, players
      ensures State() == QueenReleased(old(State()), seat)
    {
      pendingQueenCoin := None;
      SetPendingQueenOf(seat, false);
      queenPocketedThisTurn := false;
      coverTurn := false;
    }

    /**
     * The queen's record while no cover is owed (manager.js:110-125). The held-back coin is kept
     * with its capture flag cleared, as the assignment after the record leaves the shared object.
     */
    method QueenRecord(index: nat)
      requires Valid() && index < |board.coins|
      modifies this, board, players
      ensures State() == QueenPocketed(old(State()), index)
    {
      var seat := currentPlayerIndex;
      var coinObj := board.coins[index];
      var score := AddScoreTo(seat, 1);
      ScoreShot();
      HoldQueen(seat, coinObj.(processedPocket := false));
      if score <= 0 {
        CentreCoin(index);
        ReleaseQueen(seat);
      } else {
        RemoveCoin(index);
      }
    }

    /** Coin `index` leaves the board for the bank of the player in `seat`. */
    method BankCoin(seat: Seat, index: nat, color: Color)
      requires Valid() && index < |board.coins|
      modifies board, players
      ensures State() == Banked(old(State()), seat, index, color)
    {
      BankFor(seat, color);
      RemoveCoin(index);
    }

    /** Banks a queen held back for the player in `seat`, now that they have covered it. */
    method CoverQueen(seat: Seat)
      requires Valid()
      modifies this, players
      ensures State() == Covered(old(State()), seat)
    {
      if players[seat].HasPendingQueen() && pendingQueenCoin.Some? {
        BankFor(seat, Queen);
        ReleaseQueen(seat);
      }
    }

    /** A record of the current player's colour (manager.js:129-145). */
    method OwnRecord(index: nat, color: Color)
      requires Valid() && index < |board.coins|
      modifies this, board, players
      ensures State() == OwnPocketed(old(State()), index, color)
    {
      var seat := currentPlayerIndex;
      var score := AddScoreTo(seat, 1);
      ScoreShot();
      if score <= 0 {
        CentreCoin(index);
      } else {
        BankCoin(seat, index, color);
        CoverQueen(seat);
      }
    }

    /** A record of the opponent's colour (manager.js:147-155). */
    method OpponentRecord(index: nat, color: Color)
      requires Valid() && index < |board.coins|
      modifies this, board, players
      ensures State() == OpponentPocketed(old(State()), index, color)
    {
      var seat := Opponent(currentPlayerIndex);
      var score := AddScoreTo(seat, 1);
      shouldSwitchTurn := true;
      if score <= 0 {
        CentreCoin(index);
      } else {
        BankCoin(seat, index, color);
      }
    }
    /** One `{color}` record of the batch the board emitted (manager.js:101-158). */
    method ApplyRecord(color: Color)
      requires Valid()
      modifies this, board, players
      ensures State() == Rules.ApplyRecord(old(State()), color)
    {
      turnPocketedCoins := turnPocketedCoins + [color];
      ConsumeRecord(color);
    }

    /** Finds the coin a record stands for and applies the rule for its colour (manager.js:104-157). */
    method ConsumeRecord(color: Color)
      requires Valid()
      modifies this, board, players
      ensures State() == Consume(old(State()), color)
    {
      var index := FindProcessed(board.coins, color);
      if index == -1 {
        return;
      }
      if color == Queen {
        if GetCurrentPlayer().HasPendingQueen() {
          return;
        }
        QueenRecord(index);
      } else if color == GetCurrentPlayer().GetColor() {
        OwnRecord(index, color);
      } else {
        OpponentRecord(index, color);
      }
      // The source then clears `processedPocket` on the consumed coin; that coin has either left
      // the list or been reset by the move to the centre, so nothing on the board changes.
    }

    // ---------------------------------------------------------------- turn resolution

    /** A cover shot without a coin of the player's colour (manager.js:176-187). */
    method CoverFailed()
      requires Valid()
      modifies this, board, players
      ensures State() == Rules.CoverFailed(old(State()))
    {
      var seat := currentPlayerIndex;
      var _ := AddScoreTo(seat, -1);
      ReleaseQueen(seat);
      board.SpawnCoin(Queen);
      SwitchTurn();
    }

    /** `removePocketedCoin` on the player in `seat`. */
    method RefundFrom(seat: Seat) returns (c: Option<Color>)
      requires Valid()
      modifies players
      ensures c == RefundedCoin(old(State()), seat) && State() == Refunded(old(State()), seat)
    {
      if seat == 0 {
        c := players[0].RemovePocketedCoin();
      } else {
        c := players[1].RemovePocketedCoin();
      }
    }

    /** The striker was pocketed (manager.js:190-196). */
    method StrikerFoul()
      requires Valid()
      modifies this, board, players
      ensures State() == Rules.StrikerFoul(old(State()), false)
    {
      var seat := currentPlayerIndex;
      var _ := AddScoreTo(seat, -1);
      PayBack(seat);
      SwitchTurn();
    }

    /** One banked coin of the player in `seat` goes back to the board's centre (manager.js:192-195). */
    method PayBack(seat: Seat)
      requires Valid()
      modifies board, players
      ensures State() == Rules.PayBack(old(State()), seat)
    {
      var coinColor := RefundFrom(seat);
      if coinColor.Some? {
        board.SpawnCoin(coinColor.value);
      }
    }

    /** The same player shoots again from the dock (manager.js:208-216). */
    method KeepTurn()
      requires Valid()
      modifies this, board
      ensures State() == Rules.KeepTurn(old(State()))
    {
      coverTurn := false;
      DockStriker();
      turnStarted := false;
    }

    /** A scoring shot with no foul (manager.js:199-217). */
    method ContinueTurn()
      requires Valid()
      modifies this, board
      ensures State() == Rules.ContinueTurn(old(State()))
    {
      ClearTurn();
      if GetCurrentPlayer().HasPendingQueen() {
        StartCoverTurn();
      } else {
        KeepTurn();
      }
    }

    /** What follows a shot that needed no cover, or whose cover succeeded (manager.js:190-227). */
    method ResolveShot()
      requires Valid()
      modifies this, board, players
      ensures State() == Rules.ResolveShot(old(State()), false)
    {
      if board.GetStrikerState() == Pocket {
        StrikerFoul();
      } else if |turnPocketedCoins| > 0 {
        if maintainTurn && !shouldSwitchTurn {
          ContinueTurn();
        } else {
          SwitchTurn();
        }
      } else if GetCurrentPlayer().HasPendingQueen() {
        StartCoverTurn();
      } else {
        SwitchTurn();
      }
    }

    /** What follows a shot that has come to rest (manager.js:176-227). */
    method Resolve()
      requires Valid()
      modifies this, board, players
      ensures State() == Rules.Resolve(old(State()), false)
    {
      var cur := GetCurrentPlayer();
      if coverTurn && cur.HasPendingQueen() {
        var hasMatchingCoin := cur.GetColor() in turnPocketedCoins;
        if !hasMatchingCoin {
          CoverFailed();
          return;
        }
      }
      ResolveShot();
    }

    /** The part of `update` after the batch: the win check, the start-of-shot latch, resolution (manager.js:163-228). */
    method Settle()
      requires Valid()
      modifies this, board, players
      ensures State() == Rules.Settle(old(State()), false)
    {
      if GetCurrentPlayer().GetScore() >= MaxScore || GetOpponentPlayer().GetScore() >= MaxScore {
        ResetGame();
        return;
      }
      if board.GetStrikerState() == Moving {
        turnStarted := true;
        if firstTurn {
          firstTurn := false;
        }
      }
      if turnStarted && (board.GetStrikerState() == Idle || board.GetStrikerState() == Pocket) {
        Resolve();
      }
    }

    /** Applies the tick's pocket records in the order the board emitted them (manager.js:101-159). */
    method ApplyBatch(records: seq<Color>)
      requires Valid()
      modifies this, board, players
      ensures State() == ApplyRecords(old(State()), records)
    {
      var k := 0;
      while k < |records|
        invariant 0 <= k <= |records|
        invariant ApplyRecords(State(), records[k..]) == ApplyRecords(old(State()), records)
      {
        assert records[k..] == [records[k]] + records[k + 1..];
        ApplyRecord(records[k]);
        k := k + 1;
      }
    }

    /** Takes the board's records, applies them and clears the board's list (manager.js:99-161). */
    method DrainRecords()
      requires Valid()
      modifies this, board, players
      ensures State() == Drain(old(State()))
    {
      var pocketedCoins := board.GetPocketedCoins();
      ApplyBatch(pocketedCoins);
      board.ClearPocketedCoins();
    }

    /**
     * One frame of the game (manager.js:97-229). The physics substeps are represented by their
     * outcome: the striker as they leave it and the two pocket tests.
     */
    method Update(dt: real, moved: Striker, strikerInPocket: bool, coinInPocket: Coin -> bool)
      requires Valid()
      modifies this, board, players
      ensures State() == Tick(old(State()), dt, moved, strikerInPocket, coinInPocket, false)
    {
      board.Update(dt, moved, strikerInPocket, coinInPocket);
      DrainRecords();
      Settle();
    }
  }
}
