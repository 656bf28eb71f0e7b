/**
 * Every capture is consumed. A coin's capture flag (`processedPocket`) is raised in the same tick
 * as its pocket record is emitted, and every record of the batch finds a flagged coin of its
 * colour and clears it: the coin leaves the board or is put back at the centre unflagged. So at
 * the end of every tick no coin is left flagged and no record is left waiting. The one record
 * that could find nothing to act on, a queen record while a queen is held back, never meets a
 * flagged queen: the only queen is the one held back.
 */
module Consumption {
  import opened Pieces
  import opened Players
  import opened Boards
  import opened Rules
  import opened Conservation
  import Lists

  /** Between ticks: the inventory is within the full set, no record waits and no coin is flagged. */
  predicate Quiet(g: Game)
  {
    Sound(g) && Inventory(g) <= FullSet() && g.board.pocketedCoins == [] && Flagged(g.board.coins) == multiset{}
  }

  /** The game accounts for at most one queen, as every game within the full set does. */
  predicate OneQueen(g: Game)
  {
    Sound(g) && Inventory(g)[Queen] <= 1
  }

  lemma WithinFullSetOneQueen(g: Game)
    requires Sound(g) && Inventory(g) <= FullSet()
    ensures OneQueen(g)
  {
    InitialColourCount();
  }

  /** While a queen is held back, no queen is on the board, so none is flagged. */
  lemma QueenOffBoardWhileHeld(g: Game)
    requires OneQueen(g) && g.pendingQueenCoin.Some?
    ensures Queen !in OnBoard(g) && Queen !in Flagged(g.board.coins)
  {
    assert Held(g)[Queen] == 1;
    FlaggedWithinColors(g.board.coins);
  }

  /** A record's coin, put back at the centre or taken off the board, loses its flag. */
  lemma ConsumedCoin(g: Game, index: nat, r: Game)
    requires index < |g.board.coins| && g.board.coins[index].processedPocket
    requires r.board.coins == CentreAt(g.board, index).coins || r.board.coins == RemoveAt(g.board, index).coins
    ensures Flagged(r.board.coins) + multiset{g.board.coins[index].color} == Flagged(g.board.coins)
  {
    var c := g.board.coins[index];
    if r.board.coins == CentreAt(g.board, index).coins {
      FlaggedUpdate(g.board.coins, index, Centred(c));
    } else {
      FlaggedSplice(g.board.coins, index);
    }
  }

  /** The queen's record acts on coin `index`. */
  lemma QueenPocketedConsumes(g: Game, index: nat)
    requires index < |g.board.coins|
    ensures var r := QueenPocketed(g, index);
            r.board.coins == CentreAt(g.board, index).coins || r.board.coins == RemoveAt(g.board, index).coins
  {
    var s := g.current;
    var h := QueenHeld(Scored(AddPoints(g, s, 1)), s, g.board.coins[index].(processedPocket := false));
    assert h.board == g.board;
    if PlayerAt(h, s).score <= 0 {
      assert QueenPocketed(g, index) == QueenReleased(h.(board := CentreAt(h.board, index)), s);
    } else {
      assert QueenPocketed(g, index) == h.(board := RemoveAt(h.board, index));
    }
  }

  /** An own-colour record acts on coin `index`; a cover changes no coin. */
  lemma OwnPocketedConsumes(g: Game, index: nat, color: Color)
    requires index < |g.board.coins|
    ensures var r := OwnPocketed(g, index, color);
            r.board.coins == CentreAt(g.board, index).coins || r.board.coins == RemoveAt(g.board, index).coins
  {
    var s := g.current;
    var h := Scored(AddPoints(g, s, 1));
    if PlayerAt(h, s).score > 0 {
      CoveredKeepsBoard(Banked(h, s, index, color), s);
    }
  }

  lemma CoveredKeepsBoard(b: Game, s: Seat)
    ensures Covered(b, s).board == b.board
  {
  }

  /** An opponent-colour record acts on coin `index`. */
  lemma OpponentPocketedConsumes(g: Game, index: nat, color: Color)
    requires index < |g.board.coins|
    ensures var r := OpponentPocketed(g, index, color);
            r.board.coins == CentreAt(g.board, index).coins || r.board.coins == RemoveAt(g.board, index).coins
  {
  }

  /** Each record clears the flag of one coin of its colour. */
  lemma ApplyRecordConsumes(g: Game, color: Color)
    requires OneQueen(g) && color in Flagged(g.board.coins)
    ensures Flagged(ApplyRecord(g, color).board.coins) + multiset{color} == Flagged(g.board.coins)
  {
    var h := g.(turnPocketed := g.turnPocketed + [color]);
    var index := FindProcessed(h.board.coins, color);
    FindProcessedFindsFlagged(h.board.coins, color);
    if color == Queen && Current(h).pendingQueen {
      QueenOffBoardWhileHeld(g);
      assert false;
    }
    if color == Queen {
      QueenPocketedConsumes(h, index);
      assert ApplyRecord(g, color) == QueenPocketed(h, index);
    } else if color == Current(h).color {
      OwnPocketedConsumes(h, index, color);
      assert ApplyRecord(g, color) == OwnPocketed(h, index, color);
    } else {
      OpponentPocketedConsumes(h, index, color);
      assert ApplyRecord(g, color) == OpponentPocketed(h, index, color);
    }
    ConsumedCoin(h, index, ApplyRecord(g, color));
  }

  /** A batch whose records are exactly the flagged colours clears every flag. */
  lemma {:induction false} ApplyRecordsConsume(g: Game, records: seq<Color>)
    requires OneQueen(g) && Flagged(g.board.coins) == multiset(records)
    ensures Flagged(ApplyRecords(g, records).board.coins) == multiset{}
    decreases records
  {
    if records != [] {
      var k := ApplyRecord(g, records[0]);
      ApplyRecordConsumes(g, records[0]);
      Uncounted(records, Flagged(k.board.coins));
      ApplyRecordOneQueen(g, records[0]);
      ApplyRecordsConsume(k, records[1..]);
    }
  }

  lemma Uncounted(records: seq<Color>, m: multiset<Color>)
    requires records != [] && m + multiset{records[0]} == multiset(records)
    ensures m == multiset(records[1..])
  {
    assert records == [records[0]] + records[1..];
    var rest := multiset(records[1..]);
    assert m + multiset{records[0]} == multiset{records[0]} + rest;
    forall c ensures m[c] == rest[c] {
      assert (m + multiset{records[0]})[c] == (multiset{records[0]} + rest)[c];
    }
  }

  lemma ApplyRecordOneQueen(g: Game, color: Color)
    requires OneQueen(g)
    ensures OneQueen(ApplyRecord(g, color))
  {
    ApplyRecordKeeps(g, color);
  }

  // ---------------------------------------------------------------- after the batch

  /** Spawning puts an unflagged coin on the board. */
  lemma SpawnUnflagged(b: BoardState, color: Color)
    ensures Flagged(Spawn(b, color).coins) == Flagged(b.coins)
  {
    FlaggedAppend(b.coins, NewCoin(NextId(b.coins), color));
  }

  lemma PassTurnUnflagged(g: Game, returnQueen: bool)
    ensures Flagged(PassTurn(g, returnQueen).board.coins) == Flagged(g.board.coins)
    ensures PassTurn(g, returnQueen).board.pocketedCoins == g.board.pocketedCoins
  {
    if returnQueen && g.pendingQueenCoin.Some? {
      SpawnUnflagged(g.board, Queen);
    }
  }

  lemma StrikerFoulUnflagged(g: Game, returnQueen: bool)
    ensures Flagged(StrikerFoul(g, returnQueen).board.coins) == Flagged(g.board.coins)
    ensures StrikerFoul(g, returnQueen).board.pocketedCoins == g.board.pocketedCoins
  {
    var a := AddPoints(g, g.current, -1);
    var k := Refunded(a, g.current);
    var c := RefundedCoin(a, g.current);
    if c.Some? {
      SpawnUnflagged(k.board, c.value);
    }
    PassTurnUnflagged(PayBack(a, g.current), returnQueen);
  }

  lemma CoverFailedUnflagged(g: Game)
    ensures Flagged(CoverFailed(g).board.coins) == Flagged(g.board.coins)
    ensures CoverFailed(g).board.pocketedCoins == g.board.pocketedCoins
  {
    var h := QueenReleased(AddPoints(g, g.current, -1), g.current);
    assert h.board == g.board;
    SpawnUnflagged(h.board, Queen);
    assert CoverFailed(g).board.coins == Spawn(h.board, Queen).coins;
  }

  /** Turn resolution flags no coin: it only returns coins to the centre as fresh ones. */
  lemma ResolveUnflagged(g: Game, returnQueen: bool)
    ensures Flagged(Resolve(g, returnQueen).board.coins) == Flagged(g.board.coins)
    ensures Resolve(g, returnQueen).board.pocketedCoins == g.board.pocketedCoins
  {
    var cur := Current(g);
    if g.coverTurn && cur.pendingQueen && cur.color !in g.turnPocketed {
      assert Resolve(g, returnQueen) == CoverFailed(g);
      CoverFailedUnflagged(g);
    } else {
      assert Resolve(g, returnQueen) == ResolveShot(g, returnQueen);
      ResolveShotUnflagged(g, returnQueen);
    }
  }

  lemma ResolveShotUnflagged(g: Game, returnQueen: bool)
    ensures Flagged(ResolveShot(g, returnQueen).board.coins) == Flagged(g.board.coins)
    ensures ResolveShot(g, returnQueen).board.pocketedCoins == g.board.pocketedCoins
  {
    StrikerFoulUnflagged(g, returnQueen);
    PassTurnUnflagged(g, returnQueen);
    ShootAgainKeepsCoins(g);
  }

  /** Shooting again, as a cover shot or from the dock, moves only the striker. */
  lemma ShootAgainKeepsCoins(g: Game)
    ensures ContinueTurn(g).board.coins == g.board.coins && ContinueTurn(g).board.pocketedCoins == g.board.pocketedCoins
    ensures StartCoverTurn(g).board.coins == g.board.coins && StartCoverTurn(g).board.pocketedCoins == g.board.pocketedCoins
  {
  }

  lemma SettleUnflagged(g: Game, returnQueen: bool)
    requires Flagged(g.board.coins) == multiset{} && g.board.pocketedCoins == []
    ensures Flagged(Settle(g, returnQueen).board.coins) == multiset{} && Settle(g, returnQueen).board.pocketedCoins == []
  {
    if Current(g).score >= MaxScore || Other(g).score >= MaxScore {
      InitialLayout();
    } else {
      var h := if g.board.strikerState == Moving then g.(turnStarted := true, firstTurn := false) else g;
      ResolveUnflagged(h, returnQueen);
    }
  }

  // ---------------------------------------------------------------- whole ticks

  lemma InitialGameQuiet()
    ensures Quiet(InitialGame())
  {
    InitialGameIsFull();
    InitialLayout();
  }

  /**
   * The board's tick flags exactly the colours it emits, and the batch clears them all: after the
   * records are drained no coin is flagged and none waits.
   */
  lemma DrainConsumes(g: Game, dt: real, moved: Striker, strikerInPocket: bool, coinInPocket: Coin -> bool)
    requires OneQueen(g) && g.board.pocketedCoins == [] && Flagged(g.board.coins) == multiset{}
    ensures var d := Drain(g.(board := BoardStep(g.board, dt, moved, strikerInPocket, coinInPocket)));
            Flagged(d.board.coins) == multiset{} && d.board.pocketedCoins == []
  {
    var h := g.(board := BoardStep(g.board, dt, moved, strikerInPocket, coinInPocket));
    BoardStepOneQueen(g, h, dt, moved, strikerInPocket, coinInPocket);
    BoardStepFlagsRecords(g, h, dt, moved, strikerInPocket, coinInPocket);
    ApplyRecordsConsume(h, h.board.pocketedCoins);
  }

  /** The board's tick moves no coin on or off the board. */
  lemma BoardStepOneQueen(g: Game, h: Game, dt: real, moved: Striker, strikerInPocket: bool, coinInPocket: Coin -> bool)
    requires OneQueen(g) && h == g.(board := BoardStep(g.board, dt, moved, strikerInPocket, coinInPocket))
    ensures OneQueen(h)
  {
    CaptureEmitsEachCaptureOnce(g.board.coins, dt, coinInPocket);
    assert OnBoard(h) == OnBoard(g);
  }

  /** With no record waiting and no coin flagged before, the board's tick flags exactly the records it emits. */
  lemma BoardStepFlagsRecords(g: Game, h: Game, dt: real, moved: Striker, strikerInPocket: bool, coinInPocket: Coin -> bool)
    requires g.board.pocketedCoins == [] && Flagged(g.board.coins) == multiset{}
    requires h == g.(board := BoardStep(g.board, dt, moved, strikerInPocket, coinInPocket))
    ensures Flagged(h.board.coins) == multiset(h.board.pocketedCoins)
  {
    CaptureEmitsEachCaptureOnce(g.board.coins, dt, coinInPocket);
    assert h.board.pocketedCoins == Emissions(g.board.coins, dt, coinInPocket);
  }

  /**
   * Every capture a tick flags is consumed in the same tick, as written or with the held-back
   * queen returned: from a game with no flagged coin and no waiting record, the tick ends with
   * none either, and within the full set.
   */
  lemma TickConsumesEveryCapture(g: Game, dt: real, moved: Striker, strikerInPocket: bool, coinInPocket: Coin -> bool,
                                 returnQueen: bool)
    requires Quiet(g)
    ensures Quiet(Tick(g, dt, moved, strikerInPocket, coinInPocket, returnQueen))
  {
    var d := Drain(g.(board := BoardStep(g.board, dt, moved, strikerInPocket, coinInPocket)));
    WithinFullSetOneQueen(g);
    DrainConsumes(g, dt, moved, strikerInPocket, coinInPocket);
    DrainKeeps(g, dt, moved, strikerInPocket, coinInPocket);
    SettleKeeps(d, returnQueen);
    SettleUnflagged(d, returnQueen);
  }
}
