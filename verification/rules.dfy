/**
 * The scoring and turn rules of the game manager (public/manager.js) as functions on game
 * values. `Tick` is one call of `GameManager.update`; the GameManager class is proved to
 * change its objects exactly as `Tick` says.
 */
module Rules {
  import opened Pieces
  import opened Players
  import opened Boards
  import Lists

  /** The score at which the game is won and starts over. */
  const MaxScore: int := 10

  /** An index into the two-element player array. */
  type Seat = i: int | 0 <= i < 2

  /** The index `getOpponentPlayer` reads, (i + 1) % 2 for two players: the other seat. */
  function Opponent(i: Seat): (j: Seat)
    ensures j != i
  {
    if i == 0 then 1 else 0
  }

  /** The two players' states, indexed by seat. */
  type Pair = s: seq<PlayerState> | |s| == 2
    witness [PlayerState(White, 0, [], false), PlayerState(Black, 0, [], false)]

  /** The whole game: the board, the two players (player 0 plays white) and the per-turn context. */
  datatype Game = Game(
    board: BoardState,
    players: Pair,
    current: Seat,
    turnStarted: bool,
    turnScore: int,
    turnPocketed: seq<Color>,
    maintainTurn: bool,
    shouldSwitchTurn: bool,
    queenPocketedThisTurn: bool,
    coverTurn: bool,
    pendingQueenCoin: Option<Coin>,
    firstTurn: bool)

  function PlayerAt(g: Game, i: Seat): PlayerState
  {
    g.players[i]
  }

  function WithPlayer(g: Game, i: Seat, p: PlayerState): Game
  {
    g.(players := g.players[i := p])
  }

  /** `addScore(points)` on the player in seat `i`. */
  function AddPoints(g: Game, i: Seat, points: int): Game
  {
    WithPlayer(g, i, PlayerAt(g, i).(score := PlayerAt(g, i).score + points))
  }

  /** `setPendingQueen(pending)` on the player in seat `i`. */
  function SetPending(g: Game, i: Seat, pending: bool): Game
  {
    WithPlayer(g, i, PlayerAt(g, i).(pendingQueen := pending))
  }

  /** `addPocketedCoin(color)` on the player in seat `i`. */
  function Bank(g: Game, i: Seat, color: Color): Game
  {
    WithPlayer(g, i, PlayerAt(g, i).(banked := PlayerAt(g, i).banked + [color]))
  }

  function Current(g: Game): PlayerState
  {
    PlayerAt(g, g.current)
  }

  function Other(g: Game): PlayerState
  {
    PlayerAt(g, Opponent(g.current))
  }

  /** A coin the pocket-record lookup accepts for a record of colour `color`. */
  predicate Matches(c: Coin, color: Color)
  {
    c.color == color && c.processedPocket
  }

  /** The first coin of colour `color` whose capture has been emitted, or -1 (the source's findIndex). */
  function FindProcessed(coins: seq<Coin>, color: Color): (i: int)
    ensures -1 <= i < |coins|
    ensures i == -1 <==> forall k :: 0 <= k < |coins| ==> !Matches(coins[k], color)
    ensures 0 <= i ==> Matches(coins[i], color) && forall k :: 0 <= k < i ==> !Matches(coins[k], color)
  {
    if coins == [] then -1
    else if Matches(coins[0], color) then 0
    else
      var j := FindProcessed(coins[1..], color);
      if j == -1 then -1 else j + 1
  }

  /** The lookup finds a coin for a record exactly when a coin of that colour is flagged as emitted. */
  lemma {:induction false} FindProcessedFindsFlagged(coins: seq<Coin>, color: Color)
    ensures FindProcessed(coins, color) == -1 <==> color !in Flagged(coins)
  {
    if coins != [] {
      FindProcessedFindsFlagged(coins[1..], color);
      if FindProcessed(coins, color) != -1 {
        var i := FindProcessed(coins, color);
        assert Matches(coins[i], color);
        FlaggedMember(coins, i);
      } else {
        assert !Matches(coins[0], color);
        assert forall k :: 0 <= k < |coins[1..]| ==> !Matches(coins[1..][k], color) by {
          forall k | 0 <= k < |coins[1..]| ensures !Matches(coins[1..][k], color) {
            assert coins[1..][k] == coins[k + 1];
          }
        }
      }
    }
  }

  lemma {:induction false} FlaggedMember(coins: seq<Coin>, i: nat)
    requires i < |coins| && coins[i].processedPocket
    ensures coins[i].color in Flagged(coins)
  {
    if i > 0 {
      FlaggedMember(coins[1..], i - 1);
    }
  }

  // ---------------------------------------------------------------- one pocket record (manager.js:101-159)

  /** A scoring record: the shot's score goes up and the player keeps the turn (manager.js:111-112, 130-131). */
  function Scored(g: Game): Game
  {
    g.(turnScore := g.turnScore + 1, maintainTurn := true)
  }

  /** The queen held back for the player in seat `s` until they cover it (manager.js:113-115). */
  function QueenHeld(g: Game, s: Seat, coin: Coin): Game
  {
    SetPending(g.(queenPocketedThisTurn := true), s, true).(pendingQueenCoin := Some(coin))
  }

  /** No queen is held back any more and no cover is owed (manager.js:118-121, 140-143, 180-184). */
  function QueenReleased(g: Game, s: Seat): Game
  {
    SetPending(g, s, false).(queenPocketedThisTurn := false, coverTurn := false, pendingQueenCoin := None)
  }

  /**
   * The queen's record when the current player owes no cover: a point, and the queen held back
   * until it is covered; at a score still not above zero the queen goes back to the centre instead.
   * The held-back coin is kept with its capture flag cleared, as the assignment after the record
   * leaves the object the manager shares with the board.
   */
  function QueenPocketed(g: Game, index: nat): Game
    requires index < |g.board.coins|
  {
    var s := g.current;
    var h := QueenHeld(Scored(AddPoints(g, s, 1)), s, g.board.coins[index].(processedPocket := false));
    if PlayerAt(h, s).score <= 0 then QueenReleased(h.(board := CentreAt(h.board, index)), s)
    else h.(board := RemoveAt(h.board, index))
  }

  /** Coin `index` leaves the board for the bank of the player in seat `s` (manager.js:135-137, 152-154). */
  function Banked(g: Game, s: Seat, index: nat, color: Color): Game
    requires index < |g.board.coins|
  {
    Bank(g, s, color).(board := RemoveAt(g.board, index))
  }

  /** A coin of the player's own colour covers a queen held back for them: the queen is banked too (manager.js:138-144). */
  function Covered(g: Game, s: Seat): Game
  {
    if PlayerAt(g, s).pendingQueen && g.pendingQueenCoin.Some? then QueenReleased(Bank(g, s, Queen), s)
    else g
  }

  /** A record of the current player's own colour: a point and the coin; it also covers a held-back queen. */
  function OwnPocketed(g: Game, index: nat, color: Color): Game
    requires index < |g.board.coins|
  {
    var s := g.current;
    var h := Scored(AddPoints(g, s, 1));
    if PlayerAt(h, s).score <= 0 then h.(board := CentreAt(h.board, index))
    else Covered(Banked(h, s, index, color), s)
  }

  /** A record of the opponent's colour: the point and the coin go to the opponent. */
  function OpponentPocketed(g: Game, index: nat, color: Color): Game
    requires index < |g.board.coins|
  {
    var o := Opponent(g.current);
    var h := AddPoints(g, o, 1).(shouldSwitchTurn := true);
    if PlayerAt(h, o).score <= 0 then h.(board := CentreAt(h.board, index))
    else Banked(h, o, index, color)
  }

  /** One `{color}` record of the batch the board emitted this tick. */
  function ApplyRecord(g: Game, color: Color): Game
  {
    Consume(g.(turnPocketed := g.turnPocketed + [color]), color)
  }

  /** The rule a record triggers once it is on the turn's list: the first processed coin of its colour is scored. */
  function Consume(g: Game, color: Color): Game
  {
    var index := FindProcessed(g.board.coins, color);
    if index == -1 then g
    else if color == Queen then
      if Current(g).pendingQueen then g else QueenPocketed(g, index)
    else if color == Current(g).color then OwnPocketed(g, index, color)
    else OpponentPocketed(g, index, color)
  }

  /** The records of a batch, in order. */
  function ApplyRecords(g: Game, records: seq<Color>): Game
    decreases records
  {
    if records == [] then g else ApplyRecords(ApplyRecord(g, records[0]), records[1..])
  }

  // ---------------------------------------------------------------- turn changes (manager.js:49-95)

  /** Clears the shot's score and record of pocketed coins, the part every turn change shares. */
  function ClearTurn(g: Game): Game
  {
    g.(board := g.board.(score := 0), turnScore := 0, turnPocketed := [], maintainTurn := false,
       shouldSwitchTurn := false, queenPocketedThisTurn := false)
  }

  /** Hands the turn to the opponent and clears the whole per-turn context. */
  function SwitchTurn(g: Game): Game
  {
    var next := Opponent(g.current);
    var h := ClearTurn(g.(current := next, board := g.board.(halfTurns := g.board.halfTurns + 1)))
               .(coverTurn := false, pendingQueenCoin := None);
    SetPending(h, next, false).(turnStarted := false)
  }

  /** A held-back queen, if there is one, is put back at the centre of the board and no longer held. */
  function ReturnHeldQueen(g: Game): Game
  {
    if g.pendingQueenCoin.Some? then g.(board := Spawn(g.board, Queen), pendingQueenCoin := None) else g
  }

  /**
   * The turn change a resolution performs. With `returnQueen` false it is `switchTurn` as written,
   * which forgets a held-back queen; with `returnQueen` true the queen is returned to the board first,
   * as a failed cover returns it.
   */
  function PassTurn(g: Game, returnQueen: bool): Game
  {
    if returnQueen then SwitchTurn(ReturnHeldQueen(g)) else SwitchTurn(g)
  }

  /** Keeps the player and forces a queen-cover shot from the dock. */
  function StartCoverTurn(g: Game): Game
  {
    var h := ClearTurn(g).(coverTurn := true);
    h.(board := Dock(h.board), turnStarted := false)
  }

  function ResetPlayer(p: PlayerState): PlayerState
  {
    PlayerState(p.color, 0, [], false)
  }

  /** A fresh game: the initial layout, zero scores, player 0 to shoot first. */
  function ResetGame(g: Game): (r: Game)
    ensures r.board == InitialBoard() && r.current == 0 && r.firstTurn
    ensures r.players == [PlayerState(g.players[0].color, 0, [], false), PlayerState(g.players[1].color, 0, [], false)]
    ensures !r.turnStarted && r.turnScore == 0 && r.turnPocketed == [] && !r.maintainTurn && !r.shouldSwitchTurn
    ensures !r.queenPocketedThisTurn && !r.coverTurn && r.pendingQueenCoin == None
  {
    Game(InitialBoard(), [ResetPlayer(g.players[0]), ResetPlayer(g.players[1])], 0, false, 0, [],
         false, false, false, false, None, true)
  }

  // ---------------------------------------------------------------- turn resolution (manager.js:161-228)

  /** The same player shoots again from the dock after a scoring shot with no cover owed. */
  function KeepTurn(g: Game): Game
  {
    g.(coverTurn := false, board := Dock(g.board), turnStarted := false)
  }

  /** A cover shot that pocketed none of the player's colour: the queen's point is lost and the queen returns. */
  function CoverFailed(g: Game): Game
  {
    var h := QueenReleased(AddPoints(g, g.current, -1), g.current);
    SwitchTurn(h.(board := Spawn(h.board, Queen)))
  }

  /** `removePocketedCoin` on the player in seat `s`: the bank without the coin `TakeBack` chooses. */
  function Refunded(g: Game, s: Seat): Game
  {
    var p := PlayerAt(g, s);
    WithPlayer(g, s, p.(banked := TakeBack(p.banked, p.color).rest))
  }

  /** The coin `removePocketedCoin` hands back for the player in seat `s`, if any. */
  function RefundedCoin(g: Game, s: Seat): Option<Color>
  {
    TakeBack(PlayerAt(g, s).banked, PlayerAt(g, s).color).coin
  }

  /** The striker was pocketed: a point is lost, one banked coin returns to the board, the turn passes. */
  function StrikerFoul(g: Game, returnQueen: bool): Game
  {
    PassTurn(PayBack(AddPoints(g, g.current, -1), g.current), returnQueen)
  }

  /** The player in seat `s` hands back one banked coin, which is spawned at the centre. */
  function PayBack(g: Game, s: Seat): Game
  {
    var k := Refunded(g, s);
    var c := RefundedCoin(g, s);
    if c.Some? then k.(board := Spawn(k.board, c.value)) else k
  }

  /** A scoring shot with no foul: the same player shoots again, as a cover shot if a queen is held back. */
  function ContinueTurn(g: Game): Game
  {
    var h := ClearTurn(g);
    if Current(g).pendingQueen then StartCoverTurn(h) else KeepTurn(h)
  }

  /** What follows a shot that needed no cover, or whose cover succeeded. */
  function ResolveShot(g: Game, returnQueen: bool): Game
  {
    if g.board.strikerState == Pocket then StrikerFoul(g, returnQueen)
    else if |g.turnPocketed| > 0 then
      if g.maintainTurn && !g.shouldSwitchTurn then ContinueTurn(g) else PassTurn(g, returnQueen)
    else if Current(g).pendingQueen then StartCoverTurn(g)
    else PassTurn(g, returnQueen)
  }

  /** Decides what follows a shot that has come to rest. */
  function Resolve(g: Game, returnQueen: bool): Game
  {
    var cur := Current(g);
    if g.coverTurn && cur.pendingQueen && cur.color !in g.turnPocketed then CoverFailed(g)
    else ResolveShot(g, returnQueen)
  }

  /** After the batch: the win check, the start-of-shot latch, and resolution once the striker is back. */
  function Settle(g: Game, returnQueen: bool): Game
  {
    if Current(g).score >= MaxScore || Other(g).score >= MaxScore then ResetGame(g)
    else
      var h := if g.board.strikerState == Moving then g.(turnStarted := true, firstTurn := false) else g;
      if h.turnStarted && (h.board.strikerState == Idle || h.board.strikerState == Pocket) then Resolve(h, returnQueen)
      else h
  }

  /** The board's records of this tick applied in order, then the record list emptied. */
  function Drain(g: Game): Game
  {
    var k := ApplyRecords(g, g.board.pocketedCoins);
    k.(board := k.board.(pocketedCoins := []))
  }

  /**
   * One call of `GameManager.update`: the board's tick (given the striker as the physics step
   * leaves it and the two pocket tests), the batch of records it emitted, the board's record list
   * cleared, then the win check and turn resolution. `returnQueen` selects the turn change:
   * false is `switchTurn` as written, true returns a held-back queen to the board first.
   */
  function Tick(g: Game, dt: real, moved: Striker, strikerInPocket: bool, coinInPocket: Coin -> bool,
                returnQueen: bool): Game
  {
    Settle(Drain(g.(board := BoardStep(g.board, dt, moved, strikerInPocket, coinInPocket))), returnQueen)
  }

  /** The game `GameManager`'s constructor followed by `initialize` produces. */
  function InitialGame(): Game
  {
    Game(InitialBoard(), [PlayerState(White, 0, [], false), PlayerState(Black, 0, [], false)], 0, false, 0, [],
         false, false, false, false, None, true)
  }
}
