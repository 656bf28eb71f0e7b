/**
 * What the game manager promises about one pocket record, a turn change and the resolution of a
 * shot, stated over the rules of module Rules.
 */
module Properties {
  import opened Pieces
  import opened Players
  import opened Boards
  import opened Rules
  import Lists

  // ---------------------------------------------------------------- turn changes

  /** `getOpponentPlayer` reads the other seat, and two turn changes bring the turn back. */
  lemma SwitchTurnToggles(g: Game)
    ensures SwitchTurn(g).current == Opponent(g.current) != g.current
    ensures SwitchTurn(SwitchTurn(g)).current == g.current
  {
  }

  /**
   * `switchTurn` hands the turn over with a clean slate: the shot's score, records and flags, the
   * cover obligation and the held-back queen are all cleared, and the new player owes no cover.
   * Scores, banks, the coins and the previous player's flag are left alone.
   */
  lemma SwitchTurnClears(g: Game)
    ensures var r := SwitchTurn(g);
            && r.turnScore == 0 && r.turnPocketed == [] && r.board.score == 0
            && !r.maintainTurn && !r.shouldSwitchTurn && !r.queenPocketedThisTurn
            && !r.coverTurn && r.pendingQueenCoin == None && !r.turnStarted
            && !Current(r).pendingQueen
            && Other(r) == Current(g)
            && Current(r) == Other(g).(pendingQueen := false)
            && r.board.coins == g.board.coins && r.board.halfTurns == g.board.halfTurns + 1
            && r.firstTurn == g.firstTurn
  {
  }

  /**
   * `startCoverTurn` keeps the player, clears the shot's context, demands a cover, and puts the
   * striker back on its dock; the players and the held-back queen are left alone.
   */
  lemma StartCoverTurnKeepsPlayer(g: Game)
    ensures var r := StartCoverTurn(g);
            && r.current == g.current && r.players == g.players && r.pendingQueenCoin == g.pendingQueenCoin
            && r.coverTurn && !r.turnStarted
            && r.turnScore == 0 && r.turnPocketed == [] && r.board.score == 0
            && !r.maintainTurn && !r.shouldSwitchTurn && !r.queenPocketedThisTurn
            && r.board.strikerState == Idle && r.board.striker == Docked && r.board.sliderX == StrikerDefaultX
            && r.board.strikerResetTimer == 0.0 && r.board.coins == g.board.coins
  {
  }

  // ---------------------------------------------------------------- one pocket record

  /** A record whose coin cannot be found only goes on the turn's list. */
  lemma RecordWithoutCoin(g: Game, color: Color)
    requires FindProcessed(g.board.coins, color) == -1
    ensures ApplyRecord(g, color) == g.(turnPocketed := g.turnPocketed + [color])
  {
  }

  /** A queen record while the player still owes a cover changes no score and leaves the coins alone. */
  lemma QueenWhileOwedIgnored(g: Game)
    requires Current(g).pendingQueen
    ensures ApplyRecord(g, Queen) == g.(turnPocketed := g.turnPocketed + [Queen])
  {
  }

  /**
   * A queen record when no cover is owed: the player scores a point and keeps the turn. Above zero
   * the queen leaves the board and is held back, owed a cover; otherwise it returns to the centre
   * and nothing is owed. No coin is banked and the opponent is untouched.
   */
  lemma QueenRecordRule(g: Game)
    requires FindProcessed(g.board.coins, Queen) != -1 && !Current(g).pendingQueen
    ensures var i := FindProcessed(g.board.coins, Queen);
            var r := ApplyRecord(g, Queen);
            var score := Current(g).score + 1;
            && r.current == g.current
            && Current(r).score == score && Current(r).banked == Current(g).banked
            && Other(r) == Other(g)
            && r.turnScore == g.turnScore + 1 && r.maintainTurn
            && r.turnPocketed == g.turnPocketed + [Queen]
            && (score > 0 ==>
                  r.board.coins == Lists.Splice(g.board.coins, i)
                  && Current(r).pendingQueen && r.queenPocketedThisTurn
                  && r.pendingQueenCoin == Some(g.board.coins[i].(processedPocket := false)))
            && (score <= 0 ==>
                  r.board.coins == g.board.coins[i := NewCoin(g.board.coins[i].id, Queen)]
                  && !Current(r).pendingQueen && !r.queenPocketedThisTurn && !r.coverTurn
                  && r.pendingQueenCoin == None)
  {
  }

  /**
   * A record of the player's own colour: a point, and the turn is kept. Above zero the coin leaves
   * the board for the player's bank, followed by a held-back queen, which is then covered;
   * otherwise the coin returns to the centre. The opponent is untouched.
   */
  lemma OwnRecordRule(g: Game, color: Color)
    requires color != Queen && color == Current(g).color && FindProcessed(g.board.coins, color) != -1
    ensures var i := FindProcessed(g.board.coins, color);
            var r := ApplyRecord(g, color);
            var score := Current(g).score + 1;
            var covers := Current(g).pendingQueen && g.pendingQueenCoin.Some?;
            && r.current == g.current
            && Current(r).score == score && Other(r) == Other(g)
            && r.turnScore == g.turnScore + 1 && r.maintainTurn
            && (score > 0 ==>
                  r.board.coins == Lists.Splice(g.board.coins, i)
                  && Current(r).banked == Current(g).banked + [color] + (if covers then [Queen] else [])
                  && (covers ==> !Current(r).pendingQueen && r.pendingQueenCoin == None && !r.coverTurn))
            && (score <= 0 ==>
                  r.board.coins == g.board.coins[i := NewCoin(g.board.coins[i].id, color)]
                  && Current(r).banked == Current(g).banked && r.pendingQueenCoin == g.pendingQueenCoin)
  {
    var i := FindProcessed(g.board.coins, color);
    var h := Scored(AddPoints(g.(turnPocketed := g.turnPocketed + [color]), g.current, 1));
    if Current(g).score + 1 > 0 {
      var b := Banked(h, g.current, i, color);
      assert ApplyRecord(g, color) == Covered(b, g.current);
      assert PlayerAt(b, g.current).banked == Current(g).banked + [color];
    } else {
      assert ApplyRecord(g, color) == h.(board := CentreAt(h.board, i));
    }
  }

  /**
   * A record of the opponent's colour: the opponent scores the point and the turn is to pass.
   * Above zero the coin leaves the board for the opponent's bank; otherwise it returns to the
   * centre. The current player is untouched.
   */
  lemma OpponentRecordRule(g: Game, color: Color)
    requires color != Queen && color != Current(g).color && FindProcessed(g.board.coins, color) != -1
    ensures var i := FindProcessed(g.board.coins, color);
            var r := ApplyRecord(g, color);
            var score := Other(g).score + 1;
            && r.current == g.current && Current(r) == Current(g)
            && Other(r).score == score && r.shouldSwitchTurn
            && r.turnScore == g.turnScore && r.maintainTurn == g.maintainTurn
            && r.pendingQueenCoin == g.pendingQueenCoin
            && (score > 0 ==>
                  r.board.coins == Lists.Splice(g.board.coins, i) && Other(r).banked == Other(g).banked + [color])
            && (score <= 0 ==>
                  r.board.coins == g.board.coins[i := NewCoin(g.board.coins[i].id, color)]
                  && Other(r).banked == Other(g).banked)
  {
    var i := FindProcessed(g.board.coins, color);
    var o := Opponent(g.current);
    var h := AddPoints(g.(turnPocketed := g.turnPocketed + [color]), o, 1).(shouldSwitchTurn := true);
    if Other(g).score + 1 > 0 {
      assert ApplyRecord(g, color) == Banked(h, o, i, color);
    } else {
      assert ApplyRecord(g, color) == h.(board := CentreAt(h.board, i));
    }
  }

  // ---------------------------------------------------------------- after the records

  /** A score of ten or more on either side starts the game over. */
  lemma WinResets(g: Game, returnQueen: bool)
    requires Current(g).score >= MaxScore || Other(g).score >= MaxScore
    ensures var r := Settle(g, returnQueen);
            && r.board == InitialBoard() && r.current == 0 && r.firstTurn && !r.turnStarted
            && r.players[0] == PlayerState(g.players[0].color, 0, [], false)
            && r.players[1] == PlayerState(g.players[1].color, 0, [], false)
            && r.turnScore == 0 && r.turnPocketed == [] && !r.maintainTurn && !r.shouldSwitchTurn
            && !r.queenPocketedThisTurn && !r.coverTurn && r.pendingQueenCoin == None
  {
  }

  /** While the striker moves nothing is resolved: the shot is only marked as started. */
  lemma MovingStrikerLatches(g: Game, returnQueen: bool)
    requires Current(g).score < MaxScore && Other(g).score < MaxScore && g.board.strikerState == Moving
    ensures Settle(g, returnQueen) == g.(turnStarted := true, firstTurn := false)
  {
  }

  /** Before a shot has started nothing is resolved at all. */
  lemma NoShotNoResolution(g: Game, returnQueen: bool)
    requires Current(g).score < MaxScore && Other(g).score < MaxScore
    requires g.board.strikerState != Moving && !g.turnStarted
    ensures Settle(g, returnQueen) == g
  {
  }

  /**
   * A cover shot that pocketed none of the player's colour: the queen's point is lost, the queen
   * is spawned at the centre, nothing is owed any more and the turn passes.
   */
  lemma CoverFailedRule(g: Game, returnQueen: bool)
    requires g.coverTurn && Current(g).pendingQueen && Current(g).color !in g.turnPocketed
    ensures var r := Resolve(g, returnQueen);
            && r.current == Opponent(g.current)
            && PlayerAt(r, g.current).score == Current(g).score - 1
            && PlayerAt(r, g.current).banked == Current(g).banked
            && !PlayerAt(r, g.current).pendingQueen
            && r.board.coins == g.board.coins + [NewCoin(NextId(g.board.coins), Queen)]
  {
  }

  /**
   * A pocketed striker: the player loses a point and hands back the coin `removePocketedCoin`
   * chooses, which is spawned at the centre, and the turn passes.
   */
  lemma StrikerFoulRule(g: Game, returnQueen: bool)
    requires !(g.coverTurn && Current(g).pendingQueen && Current(g).color !in g.turnPocketed)
    requires g.board.strikerState == Pocket
    ensures var r := Resolve(g, returnQueen);
            var refund := TakeBack(Current(g).banked, Current(g).color);
            var board := if refund.coin.Some? then g.board.coins + [NewCoin(NextId(g.board.coins), refund.coin.value)]
                         else g.board.coins;
            && r.current == Opponent(g.current)
            && PlayerAt(r, g.current).score == Current(g).score - 1
            && PlayerAt(r, g.current).banked == refund.rest
            && (!returnQueen || g.pendingQueenCoin.None? ==> r.board.coins == board)
  {
    var h := AddPoints(g, g.current, -1);
    var k := PayBack(h, g.current);
    assert Resolve(g, returnQueen) == PassTurn(k, returnQueen);
    PayBackFacts(h, g.current);
    PassTurnKeepsLeaver(k, returnQueen);
  }

  /** The refund changes only the player's bank and the coins, which gain the refunded coin. */
  lemma PayBackFacts(g: Game, s: Seat)
    ensures var k := PayBack(g, s);
            var refund := TakeBack(PlayerAt(g, s).banked, PlayerAt(g, s).color);
            && k.current == g.current && k.pendingQueenCoin == g.pendingQueenCoin
            && PlayerAt(k, s) == PlayerAt(g, s).(banked := refund.rest)
            && k.board.coins == (if refund.coin.Some? then g.board.coins + [NewCoin(NextId(g.board.coins), refund.coin.value)]
                                 else g.board.coins)
  {
  }

  /** A turn change leaves the player who hands over the turn as they were. */
  lemma PassTurnKeepsLeaver(g: Game, returnQueen: bool)
    ensures var r := PassTurn(g, returnQueen);
            && r.current == Opponent(g.current) && PlayerAt(r, g.current) == Current(g)
            && (!returnQueen || g.pendingQueenCoin.None? ==> r.board.coins == g.board.coins)
  {
  }

  /** A scoring shot without a foul or an opponent's coin keeps the player, as a cover shot when a queen is owed. */
  lemma KeepTurnRule(g: Game, returnQueen: bool)
    requires !(g.coverTurn && Current(g).pendingQueen && Current(g).color !in g.turnPocketed)
    requires g.board.strikerState != Pocket && |g.turnPocketed| > 0 && g.maintainTurn && !g.shouldSwitchTurn
    ensures var r := Resolve(g, returnQueen);
            && r.current == g.current && r.players == g.players && r.board.coins == g.board.coins
            && r.coverTurn == Current(g).pendingQueen
            && r.turnPocketed == [] && !r.turnStarted && r.board.strikerState == Idle
  {
  }

  /** A shot that pocketed nothing: a cover shot if a queen is still owed, otherwise the turn passes. */
  lemma EmptyShotRule(g: Game, returnQueen: bool)
    requires !(g.coverTurn && Current(g).pendingQueen && Current(g).color !in g.turnPocketed)
    requires g.board.strikerState != Pocket && g.turnPocketed == []
    ensures var r := Resolve(g, returnQueen);
            && (Current(g).pendingQueen ==> r.current == g.current && r.coverTurn)
            && (!Current(g).pendingQueen ==> r.current == Opponent(g.current) && !r.coverTurn)
  {
  }

  /** A shot that pocketed an opponent's coin, or scored nothing, passes the turn. */
  lemma PassRule(g: Game, returnQueen: bool)
    requires !(g.coverTurn && Current(g).pendingQueen && Current(g).color !in g.turnPocketed)
    requires g.board.strikerState != Pocket && |g.turnPocketed| > 0 && !(g.maintainTurn && !g.shouldSwitchTurn)
    ensures var r := Resolve(g, returnQueen);
            && r.current == Opponent(g.current) && r.turnPocketed == [] && !r.coverTurn
            && r.pendingQueenCoin == None
  {
  }

  // ---------------------------------------------------------------- whole ticks

  lemma SettleEmptiesRecords(g: Game, returnQueen: bool)
    requires g.board.pocketedCoins == []
    ensures Settle(g, returnQueen).board.pocketedCoins == []
  {
    if Current(g).score < MaxScore && Other(g).score < MaxScore {
      var h := if g.board.strikerState == Moving then g.(turnStarted := true, firstTurn := false) else g;
      if h.turnStarted && (h.board.strikerState == Idle || h.board.strikerState == Pocket) {
        ResolveEmptiesRecords(h, returnQueen);
      }
    }
  }

  lemma ResolveEmptiesRecords(g: Game, returnQueen: bool)
    ensures Resolve(g, returnQueen).board.pocketedCoins == g.board.pocketedCoins
  {
    CoverFailedKeepsRecords(g);
    ResolveShotKeepsRecords(g, returnQueen);
  }

  lemma CoverFailedKeepsRecords(g: Game)
    ensures CoverFailed(g).board.pocketedCoins == g.board.pocketedCoins
  {
  }

  lemma ResolveShotKeepsRecords(g: Game, returnQueen: bool)
    ensures ResolveShot(g, returnQueen).board.pocketedCoins == g.board.pocketedCoins
  {
    if g.board.strikerState == Pocket {
      var k := PayBack(AddPoints(g, g.current, -1), g.current);
      assert k.board.pocketedCoins == g.board.pocketedCoins;
      PassTurnKeepsRecords(k, returnQueen);
    } else if |g.turnPocketed| > 0 && g.maintainTurn && !g.shouldSwitchTurn {
      assert ResolveShot(g, returnQueen) == ContinueTurn(g);
    } else if |g.turnPocketed| == 0 && Current(g).pendingQueen {
      assert ResolveShot(g, returnQueen) == StartCoverTurn(g);
    } else {
      PassTurnKeepsRecords(g, returnQueen);
    }
  }

  lemma PassTurnKeepsRecords(g: Game, returnQueen: bool)
    ensures PassTurn(g, returnQueen).board.pocketedCoins == g.board.pocketedCoins
  {
  }

  /** After every `update` the board's record list is empty. */
  lemma TickEmptiesRecords(g: Game, dt: real, moved: Striker, strikerInPocket: bool, coinInPocket: Coin -> bool,
                           returnQueen: bool)
    ensures Tick(g, dt, moved, strikerInPocket, coinInPocket, returnQueen).board.pocketedCoins == []
  {
    SettleEmptiesRecords(Drain(g.(board := BoardStep(g.board, dt, moved, strikerInPocket, coinInPocket))),
                         returnQueen);
  }
}
