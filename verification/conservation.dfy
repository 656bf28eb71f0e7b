/**
 * Coin conservation. Every coin of the set is, at any moment, on the board, in one of the two
 * players' banks, or held back as a queen awaiting its cover. `Tick` with the held-back queen
 * returned on a turn change keeps that inventory exactly; `Tick` as written keeps it or loses coins,
 * never gains one, and the loss is the held-back queen forgotten by `switchTurn`.
 */
module Conservation {
  import opened Pieces
  import opened Players
  import opened Boards
  import opened Rules
  import Lists

  /** The colour of the queen held back for a cover, if any. */
  function Held(g: Game): multiset<Color>
  {
    if g.pendingQueenCoin.Some? then multiset{g.pendingQueenCoin.value.color} else multiset{}
  }

  /** The coins both players have banked. */
  function Banks(g: Game): multiset<Color>
  {
    multiset(g.players[0].banked) + multiset(g.players[1].banked)
  }

  /** The colours of the coins on the board. */
  function OnBoard(g: Game): multiset<Color>
  {
    multiset(Colors(g.board.coins))
  }

  /** Every coin the game accounts for: on the board, banked, or held back. */
  function Inventory(g: Game): multiset<Color>
  {
    OnBoard(g) + Banks(g) + Held(g)
  }

  /** One coin moved from one part of the inventory to another leaves the whole as it was. */
  lemma Moved(a: multiset<Color>, b: multiset<Color>, c: multiset<Color>,
              a2: multiset<Color>, b2: multiset<Color>, c2: multiset<Color>, x: Color)
    requires (a2 + multiset{x} == a && b2 == b + multiset{x} && c2 == c)
          || (a2 + multiset{x} == a && b2 == b && c2 == c + multiset{x})
          || (a2 == a + multiset{x} && b2 + multiset{x} == b && c2 == c)
          || (a2 == a + multiset{x} && b2 == b && c2 + multiset{x} == c)
          || (a2 == a && b2 + multiset{x} == b && c2 == c + multiset{x})
          || (a2 == a && b2 == b + multiset{x} && c2 + multiset{x} == c)
    ensures a2 + b2 + c2 == a + b + c
  {
  }

  /** The full set of the initial layout: nine white coins, nine black coins and the queen. */
  function FullSet(): multiset<Color>
  {
    multiset(Colors(InitialCoins()))
  }

  /**
   * The player to shoot owes a cover exactly when a queen is held back, and what is held back is
   * the queen.
   */
  predicate Sound(g: Game)
  {
    && (Current(g).pendingQueen <==> g.pendingQueenCoin.Some?)
    && (g.pendingQueenCoin.Some? ==> g.pendingQueenCoin.value.color == Queen)
  }

  // ---------------------------------------------------------------- board edits

  lemma ColorsSplice(coins: seq<Coin>, i: nat)
    requires i < |coins|
    ensures multiset(Colors(Lists.Splice(coins, i))) + multiset{coins[i].color} == multiset(Colors(coins))
  {
    assert Colors(Lists.Splice(coins, i)) == Lists.Splice(Colors(coins), i);
  }

  /** Spawning a coin puts exactly its colour on the board. */
  lemma SpawnAdds(g: Game, color: Color)
    ensures OnBoard(g.(board := Spawn(g.board, color))) == OnBoard(g) + multiset{color}
  {
    ColorsAppend(g.board.coins, NewCoin(NextId(g.board.coins), color));
  }

  /** Moving a coin to the centre keeps every colour on the board. */
  lemma CentreKeeps(g: Game, i: nat)
    requires i < |g.board.coins|
    ensures OnBoard(g.(board := CentreAt(g.board, i))) == OnBoard(g)
  {
    assert Colors(g.board.coins[i := Centred(g.board.coins[i])]) == Colors(g.board.coins);
  }

  /** Taking coin `i` off the board removes exactly its colour from the board. */
  lemma RemoveTakes(g: Game, i: nat)
    requires i < |g.board.coins|
    ensures OnBoard(g.(board := RemoveAt(g.board, i))) + multiset{g.board.coins[i].color} == OnBoard(g)
  {
    ColorsSplice(g.board.coins, i);
  }

  // ---------------------------------------------------------------- player edits

  lemma BankAdds(g: Game, s: Seat, color: Color)
    ensures Banks(Bank(g, s, color)) == Banks(g) + multiset{color}
  {
  }

  lemma ScoreKeepsBanks(g: Game, s: Seat, points: int)
    ensures Banks(AddPoints(g, s, points)) == Banks(g)
  {
  }

  lemma PendingKeepsBanks(g: Game, s: Seat, pending: bool)
    ensures Banks(SetPending(g, s, pending)) == Banks(g)
  {
  }

  /** `removePocketedCoin` takes exactly the coin it hands back out of the banks. */
  lemma RefundTakes(g: Game, s: Seat)
    ensures Banks(Refunded(g, s)) + Returned(RefundedCoin(g, s)) == Banks(g)
  {
    var p := PlayerAt(g, s);
    TakeBackChoosesCoin(p.banked, p.color);
    if s == 0 {
      assert Banks(Refunded(g, s)) == multiset(TakeBack(p.banked, p.color).rest) + multiset(g.players[1].banked);
    } else {
      assert Banks(Refunded(g, s)) == multiset(g.players[0].banked) + multiset(TakeBack(p.banked, p.color).rest);
    }
  }

  /** A refund moves the coin it hands back, if any, from the player's bank onto the board. */
  lemma PayBackKeeps(g: Game, s: Seat)
    requires Sound(g)
    ensures var r := PayBack(g, s);
            var c := Returned(RefundedCoin(g, s));
            && Sound(r) && Held(r) == Held(g)
            && OnBoard(r) == OnBoard(g) + c && Banks(r) + c == Banks(g)
            && Inventory(r) == Inventory(g)
  {
    var k := Refunded(g, s);
    var c := RefundedCoin(g, s);
    assert Sound(k) && OnBoard(k) == OnBoard(g) && Held(k) == Held(g);
    RefundTakes(g, s);
    if c.Some? {
      SpawnedRefundKeeps(g, k, c.value);
    } else {
      assert Banks(k) == Banks(g);
    }
  }

  lemma SpawnedRefundKeeps(g: Game, k: Game, color: Color)
    requires OnBoard(k) == OnBoard(g) && Held(k) == Held(g) && Banks(k) + multiset{color} == Banks(g)
    ensures OnBoard(k.(board := Spawn(k.board, color))) == OnBoard(g) + multiset{color}
    ensures Inventory(k.(board := Spawn(k.board, color))) == Inventory(g)
  {
    var r := k.(board := Spawn(k.board, color));
    SpawnAdds(k, color);
    Moved(OnBoard(g), Banks(g), Held(g), OnBoard(r), Banks(r), Held(r), color);
  }

  // ---------------------------------------------------------------- the records of a tick

  /**
   * The queen's record moves the queen from the board to the held-back slot when the score is
   * above zero, and otherwise leaves it on the board; no bank changes.
   */
  lemma QueenPocketedKeeps(g: Game, index: nat)
    requires index < |g.board.coins| && g.board.coins[index].color == Queen
    requires Sound(g) && !Current(g).pendingQueen
    ensures var r := QueenPocketed(g, index);
            && Sound(r) && Banks(r) == Banks(g) && Held(g) == multiset{}
            && (Current(g).score + 1 > 0 ==> OnBoard(r) + multiset{Queen} == OnBoard(g) && Held(r) == multiset{Queen})
            && (Current(g).score + 1 <= 0 ==> OnBoard(r) == OnBoard(g) && Held(r) == multiset{})
            && Inventory(r) == Inventory(g)
  {
    var s := g.current;
    var h := QueenHeld(Scored(AddPoints(g, s, 1)), s, g.board.coins[index].(processedPocket := false));
    ScoreKeepsBanks(g, s, 1);
    PendingKeepsBanks(Scored(AddPoints(g, s, 1)).(queenPocketedThisTurn := true), s, true);
    assert OnBoard(h) == OnBoard(g) && Banks(h) == Banks(g);
    assert Held(h) == Held(g) + multiset{Queen};
    if PlayerAt(h, s).score <= 0 {
      var c := h.(board := CentreAt(h.board, index));
      CentreKeeps(h, index);
      PendingKeepsBanks(c, s, false);
      assert QueenPocketed(g, index) == QueenReleased(c, s);
    } else {
      var r := h.(board := RemoveAt(h.board, index));
      RemoveTakes(h, index);
      Moved(OnBoard(g), Banks(g), Held(g), OnBoard(r), Banks(r), Held(r), Queen);
      assert QueenPocketed(g, index) == r;
    }
  }

  /** Banking moves the coin from the board to the end of the bank of the player in seat `s`. */
  lemma BankedKeeps(g: Game, s: Seat, index: nat, color: Color)
    requires index < |g.board.coins| && g.board.coins[index].color == color
    ensures var b := Banked(g, s, index, color);
            && OnBoard(b) + multiset{color} == OnBoard(g) && Banks(b) == Banks(g) + multiset{color}
            && PlayerAt(b, s).banked == PlayerAt(g, s).banked + [color] && Held(b) == Held(g)
            && Inventory(b) == Inventory(g)
  {
    var b := Banked(g, s, index, color);
    RemoveTakes(g, index);
    assert OnBoard(b) + multiset{color} == OnBoard(g);
    BankAdds(g, s, color);
    assert Banks(b) == Banks(g) + multiset{color};
    Moved(OnBoard(g), Banks(g), Held(g), OnBoard(b), Banks(b), Held(b), color);
  }

  /** A cover moves the held-back queen to the end of the player's bank; without one nothing changes. */
  lemma CoveredKeeps(g: Game)
    requires Sound(g)
    ensures var r := Covered(g, g.current);
            && Sound(r) && OnBoard(r) == OnBoard(g)
            && (Current(g).pendingQueen ==>
                  Held(g) == multiset{Queen} && Held(r) == multiset{} && Banks(r) == Banks(g) + multiset{Queen}
                  && Current(r).banked == Current(g).banked + [Queen])
            && (!Current(g).pendingQueen ==> r == g)
            && Inventory(r) == Inventory(g)
  {
    if Current(g).pendingQueen && g.pendingQueenCoin.Some? {
      var r := Covered(g, g.current);
      BankAdds(g, g.current, Queen);
      PendingKeepsBanks(Bank(g, g.current, Queen), g.current, false);
      assert Held(g) == multiset{Queen} && Held(r) == multiset{};
      Moved(OnBoard(g), Banks(g), Held(g), OnBoard(r), Banks(r), Held(r), Queen);
    }
  }

  lemma OwnPocketedKeeps(g: Game, index: nat, color: Color)
    requires index < |g.board.coins| && g.board.coins[index].color == color
    requires Sound(g)
    ensures Sound(OwnPocketed(g, index, color)) && Inventory(OwnPocketed(g, index, color)) == Inventory(g)
  {
    var s := g.current;
    var h := Scored(AddPoints(g, s, 1));
    ScoreKeepsBanks(g, s, 1);
    if PlayerAt(h, s).score <= 0 {
      CentreKeeps(h, index);
    } else {
      BankedKeeps(h, s, index, color);
      CoveredKeeps(Banked(h, s, index, color));
    }
  }

  /**
   * An opponent-colour record moves the coin from the board to the end of the opponent's bank when
   * the opponent's score is above zero, and otherwise leaves it on the board.
   */
  lemma OpponentPocketedKeeps(g: Game, index: nat, color: Color)
    requires index < |g.board.coins| && g.board.coins[index].color == color
    requires Sound(g)
    ensures var r := OpponentPocketed(g, index, color);
            && Sound(r) && Held(r) == Held(g)
            && (Other(g).score + 1 > 0 ==>
                  OnBoard(r) + multiset{color} == OnBoard(g) && Banks(r) == Banks(g) + multiset{color}
                  && Other(r).banked == Other(g).banked + [color])
            && (Other(g).score + 1 <= 0 ==> OnBoard(r) == OnBoard(g) && Banks(r) == Banks(g))
            && Inventory(r) == Inventory(g)
  {
    var o := Opponent(g.current);
    var h := AddPoints(g, o, 1).(shouldSwitchTurn := true);
    ScoreKeepsBanks(g, o, 1);
    if PlayerAt(h, o).score <= 0 {
      CentreKeeps(h, index);
    } else {
      BankedKeeps(h, o, index, color);
    }
  }

  /** A record only moves coins between the board, the banks and the held-back queen. */
  lemma ApplyRecordKeeps(g: Game, color: Color)
    requires Sound(g)
    ensures Sound(ApplyRecord(g, color)) && Inventory(ApplyRecord(g, color)) == Inventory(g)
  {
    var h := g.(turnPocketed := g.turnPocketed + [color]);
    var index := FindProcessed(h.board.coins, color);
    if index != -1 {
      if color == Queen {
        if !Current(h).pendingQueen {
          QueenPocketedKeeps(h, index);
        }
      } else if color == Current(h).color {
        OwnPocketedKeeps(h, index, color);
      } else {
        OpponentPocketedKeeps(h, index, color);
      }
    }
  }

  lemma {:induction false} ApplyRecordsKeep(g: Game, records: seq<Color>)
    requires Sound(g)
    ensures Sound(ApplyRecords(g, records)) && Inventory(ApplyRecords(g, records)) == Inventory(g)
    decreases records
  {
    if records != [] {
      ApplyRecordKeeps(g, records[0]);
      ApplyRecordsKeep(ApplyRecord(g, records[0]), records[1..]);
    }
  }

  /** The board's tick and the batch of records it emits keep the inventory. */
  lemma DrainKeeps(g: Game, dt: real, moved: Striker, strikerInPocket: bool, coinInPocket: Coin -> bool)
    requires Sound(g)
    ensures var d := Drain(g.(board := BoardStep(g.board, dt, moved, strikerInPocket, coinInPocket)));
            Sound(d) && Inventory(d) == Inventory(g)
  {
    var h := g.(board := BoardStep(g.board, dt, moved, strikerInPocket, coinInPocket));
    CaptureEmitsEachCaptureOnce(g.board.coins, dt, coinInPocket);
    assert OnBoard(h) == OnBoard(g);
    ApplyRecordsKeep(h, h.board.pocketedCoins);
  }

  // ---------------------------------------------------------------- turn changes and resolution

  /** `switchTurn` as written forgets the held-back queen and keeps every other coin. */
  lemma SwitchTurnDropsHeld(g: Game)
    ensures Sound(SwitchTurn(g))
    ensures Inventory(SwitchTurn(g)) + Held(g) == Inventory(g)
  {
    var h := SwitchTurn(g);
    assert OnBoard(h) == OnBoard(g) && Banks(h) == Banks(g) && Held(h) == multiset{};
  }

  /** The corrected turn change puts the held-back queen back on the board and so loses nothing. */
  lemma PassTurnKeeps(g: Game)
    requires Sound(g)
    ensures var r := PassTurn(g, true);
            && Sound(r) && OnBoard(r) == OnBoard(g) + Held(g) && Banks(r) == Banks(g) && Held(r) == multiset{}
            && Inventory(r) == Inventory(g)
  {
    var r := ReturnHeldQueen(g);
    if g.pendingQueenCoin.Some? {
      SpawnAdds(g, Queen);
      assert Held(g) == multiset{Queen} && Held(r) == multiset{} && Banks(r) == Banks(g);
      Moved(OnBoard(g), Banks(g), Held(g), OnBoard(r), Banks(r), Held(r), Queen);
    }
    SwitchTurnDropsHeld(r);
  }

  lemma PassTurnAsWrittenLoses(g: Game)
    ensures Sound(PassTurn(g, false)) && Inventory(PassTurn(g, false)) <= Inventory(g)
  {
    SwitchTurnDropsHeld(g);
  }

  /** A failed cover moves the held-back queen back onto the board; no bank changes. */
  lemma CoverFailedKeeps(g: Game)
    requires Sound(g) && Current(g).pendingQueen
    ensures var r := CoverFailed(g);
            && Sound(r) && Held(g) == multiset{Queen} && Held(r) == multiset{}
            && OnBoard(r) == OnBoard(g) + multiset{Queen} && Banks(r) == Banks(g)
            && Inventory(r) == Inventory(g)
  {
    var h := QueenReleased(AddPoints(g, g.current, -1), g.current);
    ScoreKeepsBanks(g, g.current, -1);
    PendingKeepsBanks(AddPoints(g, g.current, -1), g.current, false);
    var k := h.(board := Spawn(h.board, Queen));
    SpawnAdds(h, Queen);
    assert Held(g) == multiset{Queen} && Held(k) == multiset{} && Banks(k) == Banks(g);
    Moved(OnBoard(g), Banks(g), Held(g), OnBoard(k), Banks(k), Held(k), Queen);
    SwitchTurnDropsHeld(k);
  }

  lemma StrikerFoulKeeps(g: Game, returnQueen: bool)
    requires Sound(g)
    ensures Sound(StrikerFoul(g, returnQueen))
    ensures Inventory(StrikerFoul(g, returnQueen)) <= Inventory(g)
    ensures returnQueen ==> Inventory(StrikerFoul(g, returnQueen)) == Inventory(g)
  {
    var h := AddPoints(g, g.current, -1);
    ScoreKeepsBanks(g, g.current, -1);
    PayBackKeeps(h, g.current);
    if returnQueen {
      PassTurnKeeps(PayBack(h, g.current));
    } else {
      PassTurnAsWrittenLoses(PayBack(h, g.current));
    }
  }

  lemma ResolveKeeps(g: Game, returnQueen: bool)
    requires Sound(g)
    ensures Sound(Resolve(g, returnQueen))
    ensures Inventory(Resolve(g, returnQueen)) <= Inventory(g)
    ensures returnQueen ==> Inventory(Resolve(g, returnQueen)) == Inventory(g)
  {
    var cur := Current(g);
    if g.coverTurn && cur.pendingQueen && cur.color !in g.turnPocketed {
      CoverFailedKeeps(g);
    } else if g.board.strikerState == Pocket {
      StrikerFoulKeeps(g, returnQueen);
    } else if (|g.turnPocketed| > 0 && !(g.maintainTurn && !g.shouldSwitchTurn))
              || (|g.turnPocketed| == 0 && !cur.pendingQueen) {
      if returnQueen {
        PassTurnKeeps(g);
      } else {
        PassTurnAsWrittenLoses(g);
      }
    }
  }

  /** A fresh game holds the full set and owes no cover. */
  lemma ResetGameIsFull(g: Game)
    ensures Sound(ResetGame(g)) && Inventory(ResetGame(g)) == FullSet()
  {
  }

  /** The part of a tick after the records: the full set after a win, otherwise no coin gained. */
  lemma SettleKeeps(g: Game, returnQueen: bool)
    requires Sound(g)
    ensures var r := Settle(g, returnQueen);
            && Sound(r)
            && (Inventory(r) == FullSet() || Inventory(r) <= Inventory(g))
            && (returnQueen ==> Inventory(r) == FullSet() || Inventory(r) == Inventory(g))
  {
    if Current(g).score >= MaxScore || Other(g).score >= MaxScore {
      ResetGameIsFull(g);
      assert Settle(g, returnQueen) == ResetGame(g);
    } else {
      ResolutionKeeps(g, returnQueen);
    }
  }

  /** Without a win, the start-of-shot latch keeps every coin and resolution gains none. */
  lemma ResolutionKeeps(g: Game, returnQueen: bool)
    requires Sound(g) && Current(g).score < MaxScore && Other(g).score < MaxScore
    ensures var r := Settle(g, returnQueen);
            && Sound(r) && Inventory(r) <= Inventory(g)
            && (returnQueen ==> Inventory(r) == Inventory(g))
  {
    var h := if g.board.strikerState == Moving then g.(turnStarted := true, firstTurn := false) else g;
    assert Sound(h) && Inventory(h) == Inventory(g);
    if h.turnStarted && (h.board.strikerState == Idle || h.board.strikerState == Pocket) {
      assert Settle(g, returnQueen) == Resolve(h, returnQueen);
      ResolveKeeps(h, returnQueen);
    } else {
      assert Settle(g, returnQueen) == h;
    }
  }

  // ---------------------------------------------------------------- whole ticks

  /** The start of the game holds the full set and owes no cover. */
  lemma InitialGameIsFull()
    ensures Sound(InitialGame()) && Inventory(InitialGame()) == FullSet()
  {
  }

  /**
   * With the held-back queen returned on a turn change, every tick keeps the full set: nine white
   * coins, nine black coins and one queen, each on the board, banked or held back.
   */
  lemma TickConservesCoins(g: Game, dt: real, moved: Striker, strikerInPocket: bool, coinInPocket: Coin -> bool)
    requires Sound(g) && Inventory(g) == FullSet()
    ensures var r := Tick(g, dt, moved, strikerInPocket, coinInPocket, true);
            Sound(r) && Inventory(r) == FullSet()
  {
    DrainKeeps(g, dt, moved, strikerInPocket, coinInPocket);
    SettleKeeps(Drain(g.(board := BoardStep(g.board, dt, moved, strikerInPocket, coinInPocket))), true);
  }

  /** As written, a tick never creates a coin: the inventory stays within the full set. */
  lemma TickAsWrittenNeverGains(g: Game, dt: real, moved: Striker, strikerInPocket: bool, coinInPocket: Coin -> bool)
    requires Sound(g) && Inventory(g) <= FullSet()
    ensures var r := Tick(g, dt, moved, strikerInPocket, coinInPocket, false);
            Sound(r) && Inventory(r) <= FullSet()
  {
    DrainKeeps(g, dt, moved, strikerInPocket, coinInPocket);
    SettleKeeps(Drain(g.(board := BoardStep(g.board, dt, moved, strikerInPocket, coinInPocket))), false);
  }

  // ---------------------------------------------------------------- the queen forgotten by switchTurn

  /**
   * White's shot has pocketed the queen and a black coin; both have lain in their pockets for half
   * a second and the striker has rested on the board for half a second.
   */
  function QueenAndBlackPocketed(): Game
  {
    var queen := Coin(18, Queen, Point(40.0, 40.0), 0.0, 0.0, true, 0.5, false);
    var black := Coin(1, Black, Point(660.0, 40.0), 0.0, 0.0, true, 0.5, false);
    var striker := Striker(StrikerDefaultX, 300.0, 0.0, 0.0);
    Game(BoardState([queen, black], [], Moving, 0.5, striker, StrikerDefaultX, 0, 0),
         [PlayerState(White, 0, [], false), PlayerState(Black, 0, [], false)], 0, true, 0, [],
         false, false, false, false, None, false)
  }

  /** The board once the next half-second tick has settled both coins and the striker. */
  lemma ExampleBoardStep()
    ensures var g := QueenAndBlackPocketed();
            var q := g.board.coins[0].(pocketTimer := 1.0, processedPocket := true);
            var b := g.board.coins[1].(pocketTimer := 1.0, processedPocket := true);
            BoardStep(g.board, 0.5, g.board.striker, false, c => false)
              == BoardState([q, b], [Black, Queen], Idle, 0.0, Docked, StrikerDefaultX, 0, 0)
  {
    var g := QueenAndBlackPocketed();
    var coins := g.board.coins;
    assert coins[1..] == [coins[1]];
    assert CaptureAll(coins[1..], 0.5, c => false) == [coins[1].(pocketTimer := 1.0, processedPocket := true)];
    assert Emissions(coins[1..], 0.5, c => false) == [Black];
  }

  /** The game once that tick's records are applied and the board's record list is cleared. */
  function ExampleDrained(): Game
  {
    var q := Coin(18, Queen, Point(40.0, 40.0), 0.0, 0.0, true, 1.0, false);
    Game(BoardState([], [], Idle, 0.0, Docked, StrikerDefaultX, 0, 0),
         [PlayerState(White, 1, [], true), PlayerState(Black, 1, [Black], false)], 0, true, 1, [Black, Queen],
         true, true, true, false, Some(q), false)
  }

  /** The two records of that tick: black's coin banked by the black player, the queen held back for white. */
  lemma ExampleRecords()
    ensures var g := QueenAndBlackPocketed();
            var q := g.board.coins[0].(pocketTimer := 1.0, processedPocket := true);
            var b := g.board.coins[1].(pocketTimer := 1.0, processedPocket := true);
            Drain(g.(board := BoardState([q, b], [Black, Queen], Idle, 0.0, Docked, StrikerDefaultX, 0, 0)))
              == ExampleDrained()
  {
    var g := QueenAndBlackPocketed();
    var q := g.board.coins[0].(pocketTimer := 1.0, processedPocket := true);
    var b := g.board.coins[1].(pocketTimer := 1.0, processedPocket := true);
    var h := g.(board := BoardState([q, b], [Black, Queen], Idle, 0.0, Docked, StrikerDefaultX, 0, 0));
    var a1 := h.(board := h.board.(coins := [q]), players := [h.players[0], PlayerState(Black, 1, [Black], false)],
                 turnPocketed := [Black], shouldSwitchTurn := true);
    ExampleBlackRecord(h, q, b);
    assert FindProcessed([q], Queen) == 0;
    var a2 := ApplyRecord(a1, Queen);
    assert ApplyRecords(h, [Black, Queen]) == ApplyRecords(a1, [Queen]) == a2;
  }

  /** The black record goes to the black player, who banks the coin at a score of one. */
  lemma ExampleBlackRecord(h: Game, q: Coin, b: Coin)
    requires h.board.coins == [q, b] && q.color == Queen && b == Coin(1, Black, Point(660.0, 40.0), 0.0, 0.0, true, 1.0, true)
    requires h.current == 0 && h.players == [PlayerState(White, 0, [], false), PlayerState(Black, 0, [], false)]
    requires h.turnPocketed == []
    ensures ApplyRecord(h, Black)
              == h.(board := h.board.(coins := [q]), players := [h.players[0], PlayerState(Black, 1, [Black], false)],
                    turnPocketed := [Black], shouldSwitchTurn := true)
  {
    var h1 := h.(turnPocketed := [Black]);
    assert FindProcessed([q, b], Black) == 1;
    var h2 := AddPoints(h1, 1, 1).(shouldSwitchTurn := true);
    assert h2.players == [h.players[0], PlayerState(Black, 1, [], false)];
    assert PlayerAt(h2, 1).banked + [Black] == [Black];
    assert Bank(h2, 1, Black).players == [h.players[0], PlayerState(Black, 1, [Black], false)];
    assert Lists.Splice([q, b], 1) == [q];
    assert ApplyRecord(h, Black) == OpponentPocketed(h1, 1, Black) == Banked(h2, 1, 1, Black);
  }

  /** The whole tick, up to the resolution it reaches. */
  lemma ExampleTick(returnQueen: bool)
    ensures var g := QueenAndBlackPocketed();
            Tick(g, 0.5, g.board.striker, false, c => false, returnQueen) == Settle(ExampleDrained(), returnQueen)
  {
    ExampleBoardStep();
    ExampleRecords();
  }

  /** The shot's coins before the tick: the queen and the black coin, neither banked nor held. */
  lemma ExampleInventory()
    ensures Sound(QueenAndBlackPocketed()) && Inventory(QueenAndBlackPocketed()) == multiset{Queen, Black}
  {
    assert Colors(QueenAndBlackPocketed().board.coins) == [Queen, Black];
  }

  /**
   * The next half-second tick settles both coins: black's point and coin go to the black player, the
   * queen is held back for white, and because an opponent's coin was pocketed the turn passes. As
   * written, `switchTurn` then drops the held-back queen: it is not on the board, in no bank and
   * held by no one.
   */
  lemma QueenLostWhenTurnPasses()
    ensures var g := QueenAndBlackPocketed();
            var r := Tick(g, 0.5, g.board.striker, false, c => false, false);
            && Inventory(g) == multiset{Queen, Black}
            && r.current == 1 && r.players[1].banked == [Black] && Inventory(r) == multiset{Black}
  {
    ExampleInventory();
    ExampleTick(false);
    var d := ExampleDrained();
    assert Settle(d, false) == SwitchTurn(d);
    assert Colors(SwitchTurn(d).board.coins) == [];
  }

  /** With the held-back queen returned on the turn change, the same tick puts the queen back on the board. */
  lemma QueenReturnedWhenTurnPasses()
    ensures var g := QueenAndBlackPocketed();
            var r := Tick(g, 0.5, g.board.striker, false, c => false, true);
            && r.current == 1 && r.players[1].banked == [Black] && r.board.coins == [NewCoin(0, Queen)]
            && Inventory(r) == Inventory(g)
  {
    var g := QueenAndBlackPocketed();
    ExampleInventory();
    ExampleTick(true);
    DrainKeeps(g, 0.5, g.board.striker, false, c => false);
    ExampleBoardStep();
    ExampleRecords();
    var d := ExampleDrained();
    ResolutionKeeps(d, true);
    assert NextId(d.board.coins) == 0;
    var e := d.(board := d.board.(coins := [NewCoin(0, Queen)]), pendingQueenCoin := None);
    assert ReturnHeldQueen(d) == e;
    assert Settle(d, true) == SwitchTurn(e);
  }
}
