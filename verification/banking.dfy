/**
 * Banked coins are paid for. A coin is banked only together with the point it scores, and a point
 * lost with the striker hands a banked coin back, so a player's banked coins, with the queen held
 * back for them, never outnumber their score above zero. A player banks only coins of their own
 * colour and the queen; an opponent-colour capture goes to the opponent's bank.
 */
module Banking {
  import opened Pieces
  import opened Players
  import opened Boards
  import opened Rules
  import opened Conservation

  /** The colour of the player in seat `s`: player 0 plays white, player 1 black. */
  function Own(s: Seat): Color
  {
    if s == 0 then White else Black
  }

  /** The colour the player in seat `s` never banks: the opponent's. */
  function Foreign(s: Seat): Color
  {
    if s == 0 then Black else White
  }

  /** One for the queen held back for the player in seat `s`, if there is one. */
  function HeldFor(g: Game, s: Seat): nat
  {
    if s == g.current && g.pendingQueenCoin.Some? then 1 else 0
  }

  /** The part of a score that can pay for banked coins. */
  function Credit(score: int): nat
  {
    if score > 0 then score else 0
  }

  /**
   * Player `p` sits in seat `s` with the seat's colour, has banked none of the opponent's colour,
   * and their banked coins plus `held` do not outnumber their positive score.
   */
  predicate Paid(p: PlayerState, s: Seat, held: nat)
  {
    p.color == Own(s) && Foreign(s) !in p.banked && |p.banked| + held <= Credit(p.score)
  }

  predicate SeatBacked(g: Game, s: Seat)
  {
    Paid(PlayerAt(g, s), s, HeldFor(g, s))
  }

  /** The invariant: a sound game in which both seats' banks are paid for. */
  predicate Backed(g: Game)
  {
    Sound(g) && SeatBacked(g, 0) && SeatBacked(g, 1)
  }

  /** Both seats are paid for with nothing held back: what a turn change needs. */
  predicate Settled(g: Game)
  {
    Paid(g.players[0], 0, 0) && Paid(g.players[1], 1, 0)
  }

  lemma BackedSettled(g: Game)
    requires Backed(g)
    ensures Settled(g)
  {
    assert SeatBacked(g, 0) && SeatBacked(g, 1);
  }

  /**
   * A point scored, with the coins `added` to the bank and `held2` held back instead of `held`:
   * the point pays for at most one more coin, and none while the score stays below one.
   */
  lemma Gain(p: PlayerState, q: PlayerState, s: Seat, held: nat, held2: nat, added: seq<Color>)
    requires Paid(p, s, held)
    requires q.color == p.color && q.score == p.score + 1 && q.banked == p.banked + added
    requires Foreign(s) !in added && |added| + held2 <= held + 1 && (p.score < 0 ==> |added| + held2 <= held)
    ensures Paid(q, s, held2)
  {
  }

  /** A game whose current player, in seat `s`, and whose opponent are both paid for is backed. */
  lemma Assemble(r: Game, s: Seat)
    requires r.current == s && Sound(r)
    requires Paid(PlayerAt(r, s), s, if r.pendingQueenCoin.Some? then 1 else 0)
    requires Paid(PlayerAt(r, Opponent(s)), Opponent(s), 0)
    ensures Backed(r)
  {
    assert SeatBacked(r, s) && SeatBacked(r, Opponent(s));
  }

  // ---------------------------------------------------------------- the records of a tick

  /** The queen's record scores a point for the held-back queen, or releases it at a score not above zero. */
  lemma QueenPocketedBacked(g: Game, index: nat)
    requires index < |g.board.coins| && g.board.coins[index].color == Queen
    requires Backed(g) && !Current(g).pendingQueen
    ensures Backed(QueenPocketed(g, index))
  {
    var s := g.current;
    var p := Current(g);
    assert SeatBacked(g, s) && SeatBacked(g, Opponent(s));
    var h := QueenHeld(Scored(AddPoints(g, s, 1)), s, g.board.coins[index].(processedPocket := false));
    var r := QueenPocketed(g, index);
    if p.score + 1 <= 0 {
      assert r == QueenReleased(h.(board := CentreAt(h.board, index)), s);
      Gain(p, PlayerAt(r, s), s, 0, 0, []);
    } else {
      assert r == h.(board := RemoveAt(h.board, index));
      Gain(p, PlayerAt(r, s), s, 0, 1, []);
    }
    assert PlayerAt(r, Opponent(s)) == Other(g);
    Assemble(r, s);
  }

  /** An own-colour record banks the coin, and a held-back queen with it, each with a point to pay for it. */
  lemma OwnPocketedBacked(g: Game, index: nat, color: Color)
    requires index < |g.board.coins| && g.board.coins[index].color == color
    requires Backed(g) && color == Current(g).color
    ensures Backed(OwnPocketed(g, index, color))
  {
    var s := g.current;
    var h := Scored(AddPoints(g, s, 1));
    if Current(g).score + 1 <= 0 {
      var p := Current(g);
      assert SeatBacked(g, s) && SeatBacked(g, Opponent(s));
      var r := h.(board := CentreAt(h.board, index));
      assert OwnPocketed(g, index, color) == r;
      Gain(p, PlayerAt(r, s), s, HeldFor(g, s), HeldFor(g, s), []);
      assert PlayerAt(r, Opponent(s)) == Other(g);
      Assemble(r, s);
    } else {
      BankedBacked(g, h, index, color);
      CoveredBacked(g, Banked(h, s, index, color));
    }
  }

  /** The own-colour coin banked with its point, before any cover. */
  lemma BankedBacked(g: Game, h: Game, index: nat, color: Color)
    requires index < |g.board.coins| && Backed(g) && color == Current(g).color && Current(g).score >= 0
    requires h == Scored(AddPoints(g, g.current, 1))
    ensures var b := Banked(h, g.current, index, color);
            && b.current == g.current && b.pendingQueenCoin == g.pendingQueenCoin
            && PlayerAt(b, g.current) == Current(g).(score := Current(g).score + 1, banked := Current(g).banked + [color])
            && PlayerAt(b, Opponent(g.current)) == Other(g)
  {
  }

  /** A cover banks the held-back queen, paid for by the point of the coin that covers it. */
  lemma CoveredBacked(g: Game, b: Game)
    requires Backed(g) && Current(g).score >= 0 && b.current == g.current && b.pendingQueenCoin == g.pendingQueenCoin
    requires PlayerAt(b, g.current) == Current(g).(score := Current(g).score + 1, banked := Current(g).banked + [Current(g).color])
    requires PlayerAt(b, Opponent(g.current)) == Other(g)
    ensures Backed(Covered(b, b.current))
  {
    var s := g.current;
    var p := Current(g);
    assert SeatBacked(g, s) && SeatBacked(g, Opponent(s));
    var r := Covered(b, s);
    if p.pendingQueen && g.pendingQueenCoin.Some? {
      assert PlayerAt(r, s).banked == p.banked + [p.color] + [Queen];
      Gain(p, PlayerAt(r, s), s, 1, 0, [p.color, Queen]);
    } else {
      Gain(p, PlayerAt(r, s), s, HeldFor(g, s), HeldFor(g, s), [p.color]);
    }
    assert PlayerAt(r, Opponent(s)) == Other(g);
    Assemble(r, s);
  }

  /** An opponent-colour record banks the coin, which is the opponent's own colour, with the opponent's point. */
  lemma OpponentPocketedBacked(g: Game, index: nat, color: Color)
    requires index < |g.board.coins| && g.board.coins[index].color == color
    requires Backed(g) && color != Queen && color != Current(g).color
    ensures Backed(OpponentPocketed(g, index, color))
  {
    var p := Other(g);
    var q := if p.score + 1 <= 0 then p.(score := p.score + 1) else p.(score := p.score + 1, banked := p.banked + [color]);
    OpponentPocketedPlayers(g, index, color, q);
    OpponentPaid(g, q, color);
    Assemble(OpponentPocketed(g, index, color), g.current);
  }

  /** An opponent-colour record changes only the opponent's player state and the board. */
  lemma OpponentPocketedPlayers(g: Game, index: nat, color: Color, q: PlayerState)
    requires index < |g.board.coins|
    requires var p := Other(g);
             q == if p.score + 1 <= 0 then p.(score := p.score + 1) else p.(score := p.score + 1, banked := p.banked + [color])
    ensures var r := OpponentPocketed(g, index, color);
            && r.players == g.players[Opponent(g.current) := q]
            && r.current == g.current && r.pendingQueenCoin == g.pendingQueenCoin
  {
    var o := Opponent(g.current);
    var h := AddPoints(g, o, 1).(shouldSwitchTurn := true);
    var r := OpponentPocketed(g, index, color);
    if Other(g).score + 1 <= 0 {
      assert r.players == h.players;
    } else {
      assert r.players == Bank(h, o, color).players;
    }
  }

  lemma OpponentPaid(g: Game, q: PlayerState, color: Color)
    requires Backed(g) && color != Queen && color != Current(g).color
    requires var p := Other(g);
             q == if p.score + 1 <= 0 then p.(score := p.score + 1) else p.(score := p.score + 1, banked := p.banked + [color])
    ensures Paid(q, Opponent(g.current), 0) && Paid(Current(g), g.current, if g.pendingQueenCoin.Some? then 1 else 0)
  {
    var s := g.current;
    var o := Opponent(s);
    assert SeatBacked(g, s) && SeatBacked(g, o);
    assert color == Own(o);
    if Other(g).score + 1 <= 0 {
      Gain(Other(g), q, o, 0, 0, []);
    } else {
      Gain(Other(g), q, o, 0, 0, [color]);
    }
  }

  lemma ApplyRecordBacked(g: Game, color: Color)
    requires Backed(g)
    ensures Backed(ApplyRecord(g, color))
  {
    var h := g.(turnPocketed := g.turnPocketed + [color]);
    assert SeatBacked(g, 0) && SeatBacked(g, 1);
    assert SeatBacked(h, 0) && SeatBacked(h, 1);
    var index := FindProcessed(h.board.coins, color);
    if index != -1 {
      if color == Queen {
        if !Current(h).pendingQueen {
          QueenPocketedBacked(h, index);
        }
      } else if color == Current(h).color {
        OwnPocketedBacked(h, index, color);
      } else {
        OpponentPocketedBacked(h, index, color);
      }
    }
  }

  lemma {:induction false} ApplyRecordsBacked(g: Game, records: seq<Color>)
    requires Backed(g)
    ensures Backed(ApplyRecords(g, records))
    decreases records
  {
    if records != [] {
      ApplyRecordBacked(g, records[0]);
      ApplyRecordsBacked(ApplyRecord(g, records[0]), records[1..]);
    }
  }

  // ---------------------------------------------------------------- turn changes and resolution

  /** A turn change, with or without the held-back queen returned, keeps every bank paid for. */
  lemma PassTurnBacked(g: Game, returnQueen: bool)
    requires Settled(g)
    ensures Backed(PassTurn(g, returnQueen))
  {
    var h := if returnQueen then ReturnHeldQueen(g) else g;
    assert h.players == g.players;
    var r := SwitchTurn(h);
    assert PassTurn(g, returnQueen) == r;
    assert PlayerAt(r, 0).banked == g.players[0].banked && PlayerAt(r, 0).score == g.players[0].score;
    assert PlayerAt(r, 1).banked == g.players[1].banked && PlayerAt(r, 1).score == g.players[1].score;
    assert SeatBacked(r, 0) && SeatBacked(r, 1);
  }

  /** A failed cover takes the queen's point back together with the held-back queen. */
  lemma CoverFailedBacked(g: Game)
    requires Backed(g) && Current(g).pendingQueen
    ensures Backed(CoverFailed(g))
  {
    var s := g.current;
    assert SeatBacked(g, s) && SeatBacked(g, Opponent(s));
    assert HeldFor(g, s) == 1;
    var h := QueenReleased(AddPoints(g, s, -1), s);
    var k := h.(board := Spawn(h.board, Queen));
    assert PlayerAt(k, s).banked == Current(g).banked && PlayerAt(k, s).score == Current(g).score - 1;
    assert PlayerAt(k, Opponent(s)) == Other(g);
    assert Paid(PlayerAt(k, s), s, 0) && Paid(PlayerAt(k, Opponent(s)), Opponent(s), 0);
    assert Settled(k);
    PassTurnBacked(k, false);
  }

  /**
   * Losing a point and paying back the coin `TakeBack` chooses keeps a player's bank paid for:
   * a non-empty bank without the opponent's colour holds a queen or an own-colour coin to hand back.
   */
  lemma RefundPaid(p: PlayerState, s: Seat, held: nat)
    requires Paid(p, s, held)
    ensures Paid(p.(score := p.score - 1, banked := TakeBack(p.banked, p.color).rest), s, 0)
  {
    var t := TakeBack(p.banked, p.color);
    TakeBackChoosesCoin(p.banked, p.color);
    TakeBackKeepsOtherColours(p.banked, p.color, Foreign(s));
    assert Foreign(s) !in multiset(t.rest);
    if p.banked != [] {
      var c := p.banked[0];
      assert c != Foreign(s);
      assert c == Queen || c == p.color;
      assert t.coin.Some?;
      assert |multiset(t.rest)| + 1 == |multiset(p.banked)|;
    }
  }

  /** The striker foul's lost point is matched by the banked coin it hands back, if there is one. */
  lemma StrikerFoulBacked(g: Game, returnQueen: bool)
    requires Backed(g)
    ensures Backed(StrikerFoul(g, returnQueen))
  {
    var s := g.current;
    var p := Current(g);
    assert SeatBacked(g, s) && SeatBacked(g, Opponent(s));
    var a := AddPoints(g, s, -1);
    var k := PayBack(a, s);
    RefundPaid(p, s, HeldFor(g, s));
    assert Refunded(a, s).players == k.players;
    assert PlayerAt(k, s) == p.(score := p.score - 1, banked := TakeBack(p.banked, p.color).rest);
    assert PlayerAt(k, Opponent(s)) == Other(g);
    assert Settled(k);
    PassTurnBacked(k, returnQueen);
  }

  /** Shooting again, as a cover shot or from the dock, changes no player and holds the same queen. */
  lemma ContinueTurnBacked(g: Game)
    requires Backed(g)
    ensures Backed(ContinueTurn(g)) && Backed(StartCoverTurn(g))
  {
    assert SeatBacked(g, 0) && SeatBacked(g, 1);
    var r := ContinueTurn(g);
    assert r.players == g.players && r.current == g.current && r.pendingQueenCoin == g.pendingQueenCoin;
    assert SeatBacked(r, 0) && SeatBacked(r, 1);
    var c := StartCoverTurn(g);
    assert c.players == g.players && c.current == g.current && c.pendingQueenCoin == g.pendingQueenCoin;
    assert SeatBacked(c, 0) && SeatBacked(c, 1);
  }

  lemma ResolveBacked(g: Game, returnQueen: bool)
    requires Backed(g)
    ensures Backed(Resolve(g, returnQueen))
  {
    var cur := Current(g);
    if g.coverTurn && cur.pendingQueen && cur.color !in g.turnPocketed {
      assert Resolve(g, returnQueen) == CoverFailed(g);
      CoverFailedBacked(g);
    } else {
      assert Resolve(g, returnQueen) == ResolveShot(g, returnQueen);
      ResolveShotBacked(g, returnQueen);
    }
  }

  lemma ResolveShotBacked(g: Game, returnQueen: bool)
    requires Backed(g)
    ensures Backed(ResolveShot(g, returnQueen))
  {
    StrikerFoulBacked(g, returnQueen);
    ContinueTurnBacked(g);
    BackedSettled(g);
    PassTurnBacked(g, returnQueen);
  }

  /** A fresh game keeps the seats' colours, so its empty banks are paid for. */
  lemma ResetGameBacked(g: Game)
    requires g.players[0].color == White && g.players[1].color == Black
    ensures Backed(ResetGame(g))
  {
    assert SeatBacked(ResetGame(g), 0) && SeatBacked(ResetGame(g), 1);
  }

  lemma SettleBacked(g: Game, returnQueen: bool)
    requires Backed(g)
    ensures Backed(Settle(g, returnQueen))
  {
    assert SeatBacked(g, 0) && SeatBacked(g, 1);
    if Current(g).score >= MaxScore || Other(g).score >= MaxScore {
      ResetGameBacked(g);
    } else {
      var h := if g.board.strikerState == Moving then g.(turnStarted := true, firstTurn := false) else g;
      assert SeatBacked(h, 0) && SeatBacked(h, 1);
      if h.turnStarted && (h.board.strikerState == Idle || h.board.strikerState == Pocket) {
        assert Settle(g, returnQueen) == Resolve(h, returnQueen);
        ResolveBacked(h, returnQueen);
      }
    }
  }

  // ---------------------------------------------------------------- whole ticks

  lemma InitialGameBacked()
    ensures Backed(InitialGame())
  {
    assert SeatBacked(InitialGame(), 0) && SeatBacked(InitialGame(), 1);
  }

  /**
   * Every tick, as written or with the held-back queen returned, keeps both banks paid for: a
   * player who has banked a coin has a score above zero, and has banked no coin of the
   * opponent's colour.
   */
  lemma TickKeepsBanksBacked(g: Game, dt: real, moved: Striker, strikerInPocket: bool, coinInPocket: Coin -> bool,
                             returnQueen: bool)
    requires Backed(g)
    ensures var r := Tick(g, dt, moved, strikerInPocket, coinInPocket, returnQueen);
            && Backed(r)
            && (r.players[0].banked != [] ==> r.players[0].score > 0 && Black !in r.players[0].banked)
            && (r.players[1].banked != [] ==> r.players[1].score > 0 && White !in r.players[1].banked)
  {
    var h := g.(board := BoardStep(g.board, dt, moved, strikerInPocket, coinInPocket));
    assert SeatBacked(h, 0) && SeatBacked(h, 1);
    ApplyRecordsBacked(h, h.board.pocketedCoins);
    var k := ApplyRecords(h, h.board.pocketedCoins);
    var d := Drain(h);
    assert SeatBacked(k, 0) && SeatBacked(k, 1);
    assert SeatBacked(d, 0) && SeatBacked(d, 1);
    SettleBacked(d, returnQueen);
    var r := Settle(d, returnQueen);
    assert SeatBacked(r, 0) && SeatBacked(r, 1);
  }
}
