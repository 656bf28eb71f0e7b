/** A player's record: score, banked coins and the queen-cover obligation (public/player.js). */
module Players {
  import opened Pieces
  import Lists

  /** The observable part of a player: colour, score, banked coin colours in banking order, and pendingQueen. */
  datatype PlayerState = PlayerState(color: Color, score: int, banked: seq<Color>, pendingQueen: bool)

  /** What `removePocketedCoin` hands back to the board, and the banked list it leaves behind. */
  datatype Refund = Refund(coin: Option<Color>, rest: seq<Color>)

  /** The colours a refund puts back on the board. */
  function Returned(o: Option<Color>): multiset<Color>
  {
    if o.Some? then multiset{o.value} else multiset{}
  }

  /** `rest` is `s` with its first `x` cut out and every other entry kept in order. */
  ghost predicate RemovedFirst(s: seq<Color>, x: Color, rest: seq<Color>)
  {
    exists i :: 0 <= i < |s| && s[i] == x && x !in s[..i] && rest == s[..i] + s[i + 1..]
  }

  /**
   * The coin a player pays back after pocketing the striker: a banked queen first,
   * then a coin of the player's own colour, otherwise nothing.
   */
  function TakeBack(banked: seq<Color>, own: Color): Refund
  {
    var q := Lists.IndexOf(banked, Queen);
    if q != -1 then
      Refund(Some(Queen), Lists.Splice(banked, q))
    else
      var o := Lists.IndexOf(banked, own);
      if o != -1 then Refund(Some(own), Lists.Splice(banked, o))
      else Refund(None, banked)
  }

  /**
   * The refund takes the first banked queen if there is one, else the first banked coin of the
   * player's colour, else nothing, and it moves exactly that coin out of the bank.
   */
  lemma TakeBackChoosesCoin(banked: seq<Color>, own: Color)
    ensures var r := TakeBack(banked, own);
      && (Queen in banked ==> r.coin == Some(Queen) && RemovedFirst(banked, Queen, r.rest))
      && (Queen !in banked && own in banked ==> r.coin == Some(own) && RemovedFirst(banked, own, r.rest))
      && (Queen !in banked && own !in banked ==> r == Refund(None, banked))
      && multiset(r.rest) + Returned(r.coin) == multiset(banked)
  {
    var q := Lists.IndexOf(banked, Queen);
    if q != -1 {
      assert banked[..q] + banked[q + 1..] == Lists.Splice(banked, q);
    } else {
      var o := Lists.IndexOf(banked, own);
      if o != -1 {
        assert banked[..o] + banked[o + 1..] == Lists.Splice(banked, o);
      }
    }
  }

  /** A refund never takes a coin of a third colour (for a player, the opponent's colour) out of the bank. */
  lemma TakeBackKeepsOtherColours(banked: seq<Color>, own: Color, c: Color)
    requires c != Queen && c != own
    ensures multiset(TakeBack(banked, own).rest)[c] == multiset(banked)[c]
  {
    var r := TakeBack(banked, own);
    TakeBackChoosesCoin(banked, own);
    assert Returned(r.coin)[c] == 0;
  }

  class Player {
    const id: int
    const name: string
    const color: Color
    var score: int
    var pocketedCoins: seq<Color>
    var pendingQueen: bool

    function State(): PlayerState
      reads this
    {
      PlayerState(color, score, pocketedCoins, pendingQueen)
    }

    constructor (id: int, name: string, color: Color)
      ensures this.id == id && this.name == name
      ensures State() == PlayerState(color, 0, [], false)
    {
      this.id := id;
      this.name := name;
      this.color := color;
      score := 0;
      pocketedCoins := [];
      pendingQueen := false;
    }

    /** Changes the score by exactly `points` and nothing else. */
    method AddScore(points: int)
      modifies this
      ensures State() == old(State()).(score := old(score) + points)
    {
      score := score + points;
    }

    /** Clears the score, the banked coins and the queen obligation. */
    method ResetScore()
      modifies this
      ensures State() == PlayerState(color, 0, [], false)
    {
      score := 0;
      pocketedCoins := [];
      pendingQueen := false;
    }

    /** Banks `c` after every coin banked so far. */
    method AddPocketedCoin(c: Color)
      modifies this
      ensures State() == old(State()).(banked := old(pocketedCoins) + [c])
    {
      pocketedCoins := pocketedCoins + [c];
    }

    /** Pays back one banked coin as `TakeBack` chooses it; the score and the queen flag stay. */
    method RemovePocketedCoin() returns (c: Option<Color>)
      modifies this
      ensures c == TakeBack(old(pocketedCoins), color).coin
      ensures State() == old(State()).(banked := TakeBack(old(pocketedCoins), color).rest)
    {
      var queenIndex := Lists.IndexOf(pocketedCoins, Queen);
      if queenIndex != -1 {
        pocketedCoins := Lists.Splice(pocketedCoins, queenIndex);
        return Some(Queen);
      }
      var colorIndex := Lists.IndexOf(pocketedCoins, color);
      if colorIndex != -1 {
        pocketedCoins := Lists.Splice(pocketedCoins, colorIndex);
        return Some(color);
      }
      return None;
    }

    /** After this call `HasPendingQueen()` answers `pending`; nothing else changes. */
    method SetPendingQueen(pending: bool)
      modifies this
      ensures HasPendingQueen() == pending
      ensures State() == old(State()).(pendingQueen := pending)
    {
      pendingQueen := pending;
    }

    function HasPendingQueen(): bool
      reads this
    {
      pendingQueen
    }

    function GetScore(): int
      reads this
    {
      score
    }

    function GetColor(): Color
    {
      color
    }
  }
}
