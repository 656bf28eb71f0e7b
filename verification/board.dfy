/**
 * The board's discrete bookkeeping (public/board.js): the coin list, coin ids, the per-coin
 * capture flags, the one-shot emission of pocket records, the striker lifecycle and the
 * initial layout. Positions and velocities are carried along but never integrated here.
 */
module Boards {
  import opened Pieces
  import Lists

  const CenterX: real := 350.0
  const CenterY: real := 350.0
  const StrikerDefaultX: real := 350.0
  const StrikerDefaultY: real := 585.0
  const Ring1Count: nat := 6
  const Ring2Count: nat := 12
  /** Seconds a captured coin, a resting striker or a pocketed striker waits before moving on. */
  const SettleTime: real := 1.0

  /** Where a coin sits: a point, or the slot-th place on an initial ring (its cos/sin coordinates left symbolic). */
  datatype Place = Point(x: real, y: real) | RingSlot(ring: nat, slot: nat)

  /** A coin; `id` is the numeric suffix of the game's `coin-N` identifier. */
  datatype Coin = Coin(id: nat, color: Color, place: Place, vx: real, vy: real,
                       pocket: bool, pocketTimer: real, processedPocket: bool)

  datatype StrikerState = Idle | Aiming | Moving | Pocket

  datatype Striker = Striker(x: real, y: real, vx: real, vy: real)

  /** The striker at rest on its dock. */
  const Docked: Striker := Striker(StrikerDefaultX, StrikerDefaultY, 0.0, 0.0)

  /** Everything the board holds that the rules read or write; `halfTurns` counts 180-degree rotations. */
  datatype BoardState = BoardState(coins: seq<Coin>, pocketedCoins: seq<Color>,
                                   strikerState: StrikerState, strikerResetTimer: real,
                                   striker: Striker, sliderX: real, score: int, halfTurns: nat)

  // ---------------------------------------------------------------- coins

  /** The coin `spawnCoin` creates: at the centre, at rest, with both capture flags down. */
  function NewCoin(id: nat, color: Color): Coin
  {
    Coin(id, color, Point(CenterX, CenterY), 0.0, 0.0, false, 0.0, false)
  }

  /** `moveCoinToCenter`: the coin is put back as if it had just been spawned with its own id and colour. */
  function Centred(c: Coin): (r: Coin)
    ensures r == NewCoin(c.id, c.color)
  {
    c.(place := Point(CenterX, CenterY), vx := 0.0, vy := 0.0,
       pocket := false, pocketTimer := 0.0, processedPocket := false)
  }

  /** The largest id on a non-empty coin list. */
  function MaxId(coins: seq<Coin>): (m: nat)
    requires coins != []
    ensures forall k :: 0 <= k < |coins| ==> coins[k].id <= m
    ensures exists k :: 0 <= k < |coins| && coins[k].id == m
  {
    if |coins| == 1 then coins[0].id
    else
      var rest := MaxId(coins[1..]);
      if coins[0].id >= rest then coins[0].id else rest
  }

  /** The id `spawnCoin` gives a new coin: 0 on an empty board, otherwise one past the largest id. */
  function NextId(coins: seq<Coin>): (n: nat)
    ensures forall k :: 0 <= k < |coins| ==> coins[k].id < n
    ensures coins == [] ==> n == 0
    ensures coins != [] ==> exists k :: 0 <= k < |coins| && coins[k].id + 1 == n
  {
    if coins == [] then 0 else MaxId(coins) + 1
  }

  ghost predicate DistinctIds(coins: seq<Coin>)
  {
    forall i, j :: 0 <= i < j < |coins| ==> coins[i].id != coins[j].id
  }

  /** Spawning a coin never duplicates an id. */
  lemma SpawnKeepsIdsDistinct(coins: seq<Coin>, color: Color)
    requires DistinctIds(coins)
    ensures DistinctIds(coins + [NewCoin(NextId(coins), color)])
  {
    var s := coins + [NewCoin(NextId(coins), color)];
    forall i, j | 0 <= i < j < |s| ensures s[i].id != s[j].id {
      if j == |coins| {
        assert s[i] == coins[i];
      } else {
        assert s[i] == coins[i] && s[j] == coins[j];
      }
    }
  }

  /** The colours of a coin list, in order. */
  function Colors(coins: seq<Coin>): (r: seq<Color>)
    ensures |r| == |coins|
    ensures forall k :: 0 <= k < |coins| ==> r[k] == coins[k].color
  {
    if coins == [] then [] else [coins[0].color] + Colors(coins[1..])
  }

  /** The colour a coin contributes to the flagged multiset: its own when `processedPocket` is set. */
  function Flag(c: Coin): multiset<Color>
  {
    if c.processedPocket then multiset{c.color} else multiset{}
  }

  /** The colours of the coins whose capture has been emitted and not yet consumed by the rules. */
  function Flagged(coins: seq<Coin>): multiset<Color>
  {
    if coins == [] then multiset{} else Flag(coins[0]) + Flagged(coins[1..])
  }

  lemma {:induction false} FlaggedWithinColors(coins: seq<Coin>)
    ensures Flagged(coins) <= multiset(Colors(coins))
  {
    if coins != [] {
      FlaggedWithinColors(coins[1..]);
      assert Colors(coins) == [coins[0].color] + Colors(coins[1..]);
    }
  }

  lemma {:induction false} FlaggedConcat(a: seq<Coin>, b: seq<Coin>)
    ensures Flagged(a + b) == Flagged(a) + Flagged(b)
  {
    if a == [] {
      assert a + b == b;
    } else {
      assert (a + b)[1..] == a[1..] + b;
      FlaggedConcat(a[1..], b);
    }
  }

  /** The flagged colours split around coin `i`. */
  lemma FlaggedAround(coins: seq<Coin>, i: nat)
    requires i < |coins|
    ensures Flagged(coins) == Flagged(coins[..i]) + Flag(coins[i]) + Flagged(coins[i + 1..])
  {
    var t := coins[i..];
    assert coins == coins[..i] + t;
    assert t[1..] == coins[i + 1..];
    FlaggedConcat(coins[..i], t);
  }

  /** A coin added to the list adds its flag, if any. */
  lemma FlaggedAppend(coins: seq<Coin>, c: Coin)
    ensures Flagged(coins + [c]) == Flagged(coins) + Flag(c)
  {
    FlaggedConcat(coins, [c]);
  }

  /** A coin cut out of the list takes its flag with it. */
  lemma FlaggedSplice(coins: seq<Coin>, i: nat)
    requires i < |coins|
    ensures Flagged(Lists.Splice(coins, i)) + Flag(coins[i]) == Flagged(coins)
  {
    FlaggedAround(coins, i);
    assert Lists.Splice(coins, i) == coins[..i] + coins[i + 1..];
    FlaggedConcat(coins[..i], coins[i + 1..]);
  }

  /** A coin replaced in the list swaps its flag for the new coin's. */
  lemma FlaggedUpdate(coins: seq<Coin>, i: nat, c: Coin)
    requires i < |coins|
    ensures Flagged(coins[i := c]) + Flag(coins[i]) == Flagged(coins) + Flag(c)
  {
    var u := coins[i := c];
    FlaggedAround(coins, i);
    FlaggedAround(u, i);
    assert u[..i] == coins[..i] && u[i + 1..] == coins[i + 1..];
  }

  // ---------------------------------------------------------------- capture (board.js:611-624)

  datatype Capture = Capture(coin: Coin, emitted: bool)

  /**
   * One tick of a coin's capture bookkeeping: a free, unprocessed coin found in a pocket is
   * flagged `pocket` with a fresh timer; a captured, unprocessed coin accumulates `dt` and, once
   * its timer reaches the settle time, emits one pocket record and becomes `processedPocket`.
   */
  function Captured(c: Coin, dt: real, inPocket: bool): Capture
  {
    var c1 := if !c.pocket && !c.processedPocket && inPocket then c.(pocket := true, pocketTimer := 0.0) else c;
    if c1.pocket && !c1.processedPocket then
      var c2 := c1.(pocketTimer := c1.pocketTimer + dt);
      if c2.pocketTimer >= SettleTime then Capture(c2.(processedPocket := true), true)
      else Capture(c2, false)
    else Capture(c1, false)
  }

  /**
   * The bookkeeping keeps a coin's identity, colour, place and velocity; leaves processed coins and
   * free coins outside the pockets alone; emits exactly when the coin becomes processed, which
   * only a captured coin does; and times a capture from the tick it starts in.
   */
  lemma CaptureBookkeeping(c: Coin, dt: real, inPocket: bool)
    ensures var r := Captured(c, dt, inPocket);
      && r.coin.id == c.id && r.coin.color == c.color && r.coin.place == c.place
      && r.coin.vx == c.vx && r.coin.vy == c.vy
      && (c.processedPocket ==> r == Capture(c, false))
      && (!c.pocket && !inPocket ==> r == Capture(c, false))
      && (r.emitted <==> !c.processedPocket && r.coin.processedPocket)
      && (r.emitted ==> r.coin.pocket)
      && (!c.pocket && !c.processedPocket && inPocket ==>
            r.coin.pocket && r.coin.pocketTimer == dt && (r.emitted <==> dt >= SettleTime))
      && (c.pocket && !c.processedPocket ==>
            r.coin.pocket && r.coin.pocketTimer == c.pocketTimer + dt
            && (r.emitted <==> c.pocketTimer + dt >= SettleTime))
  {
  }

  /** Every coin after one tick of capture bookkeeping. */
  function CaptureAll(coins: seq<Coin>, dt: real, inPocket: Coin -> bool): (r: seq<Coin>)
    ensures |r| == |coins|
    ensures forall k :: 0 <= k < |coins| ==> r[k] == Captured(coins[k], dt, inPocket(coins[k])).coin
  {
    if coins == [] then []
    else [Captured(coins[0], dt, inPocket(coins[0])).coin] + CaptureAll(coins[1..], dt, inPocket)
  }

  /** The record (its colour) a coin pushes onto `pocketedCoins` this tick, if any. */
  function Emitted(c: Coin, dt: real, inPocket: Coin -> bool): seq<Color>
  {
    if Captured(c, dt, inPocket(c)).emitted then [c.color] else []
  }

  /** The records of one tick; the board walks its coins from the last to the first. */
  function Emissions(coins: seq<Coin>, dt: real, inPocket: Coin -> bool): seq<Color>
  {
    if coins == [] then [] else Emissions(coins[1..], dt, inPocket) + Emitted(coins[0], dt, inPocket)
  }

  /**
   * Capture never changes a coin's colour, and the records of a tick are exactly the colours of the
   * coins that went from unprocessed to processed in it: each capture is emitted once, and a
   * processed coin is never emitted again.
   */
  lemma {:induction false} CaptureEmitsEachCaptureOnce(coins: seq<Coin>, dt: real, inPocket: Coin -> bool)
    ensures Colors(CaptureAll(coins, dt, inPocket)) == Colors(coins)
    ensures Flagged(CaptureAll(coins, dt, inPocket)) == Flagged(coins) + multiset(Emissions(coins, dt, inPocket))
  {
    if coins != [] {
      var all := CaptureAll(coins, dt, inPocket);
      CaptureEmitsEachCaptureOnce(coins[1..], dt, inPocket);
      assert all[1..] == CaptureAll(coins[1..], dt, inPocket);
      assert Colors(all) == [all[0].color] + Colors(all[1..]);
      assert Colors(coins) == [coins[0].color] + Colors(coins[1..]);
      var cap := Captured(coins[0], dt, inPocket(coins[0]));
      CaptureBookkeeping(coins[0], dt, inPocket(coins[0]));
      assert Flag(cap.coin) == Flag(coins[0]) + multiset(Emitted(coins[0], dt, inPocket));
    }
  }

  // ---------------------------------------------------------------- striker (board.js:583-609)

  datatype StrikerTick = StrikerTick(state: StrikerState, timer: real, striker: Striker, sliderX: real)

  /**
   * One tick of the striker lifecycle, given the striker as the physics step leaves it (`moved`)
   * and whether it lies in a pocket.
   */
  function StrikerStep(state: StrikerState, timer: real, moved: Striker, sliderX: real,
                       dt: real, inPocket: bool): (r: StrikerTick)
    ensures state == Idle || state == Aiming ==> r == StrikerTick(state, timer, moved, sliderX)
    ensures state == Moving && !inPocket && (moved.vx != 0.0 || moved.vy != 0.0) ==>
              r == StrikerTick(Moving, timer, moved, sliderX)
    ensures state == Moving && !inPocket && moved.vx == 0.0 && moved.vy == 0.0 ==>
              (r.state == Idle <==> timer + dt >= SettleTime)
              && (r.state == Moving ==> r.timer == timer + dt && r.striker == moved)
    ensures state == Moving && inPocket ==>
              r.striker.vx == 0.0 && r.striker.vy == 0.0
              && (r.state == Idle <==> dt >= SettleTime)
              && (r.state == Pocket ==> r.timer == dt)
    ensures state == Pocket ==>
              (r.state == Idle <==> timer + dt >= SettleTime)
              && (r.state == Pocket ==> r.timer == timer + dt)
    ensures state == Moving && inPocket ==> r.state == (if dt >= SettleTime then Idle else Pocket)
    ensures state == Moving && !inPocket && moved.vx == 0.0 && moved.vy == 0.0 ==>
              r.state == (if timer + dt >= SettleTime then Idle else Moving)
    ensures state == Pocket ==> r.state == (if timer + dt >= SettleTime then Idle else Pocket)
    ensures r.state == Pocket ==>
              r.striker == (if state == Pocket then moved else moved.(vx := 0.0, vy := 0.0)) && r.sliderX == sliderX
    ensures r.state == Idle && state != Idle ==>
              r.striker == Docked && r.timer == 0.0 && r.sliderX == StrikerDefaultX
  {
    var a := if state == Moving && inPocket
             then StrikerTick(Pocket, 0.0, moved.(vx := 0.0, vy := 0.0), sliderX)
             else StrikerTick(state, timer, moved, sliderX);
    var b := if a.state == Moving && a.striker.vx == 0.0 && a.striker.vy == 0.0 then
               if a.timer + dt >= SettleTime
               then StrikerTick(Idle, 0.0, a.striker.(x := StrikerDefaultX, y := StrikerDefaultY), StrikerDefaultX)
               else a.(timer := a.timer + dt)
             else a;
    if b.state == Pocket then
      if b.timer + dt >= SettleTime then StrikerTick(Idle, 0.0, Docked, StrikerDefaultX)
      else b.(timer := b.timer + dt)
    else b
  }

  /** The board's part of one tick: the striker lifecycle, then capture over every coin. */
  function BoardStep(b: BoardState, dt: real, moved: Striker, strikerInPocket: bool,
                     coinInPocket: Coin -> bool): BoardState
  {
    var s := StrikerStep(b.strikerState, b.strikerResetTimer, moved, b.sliderX, dt, strikerInPocket);
    b.(strikerState := s.state, strikerResetTimer := s.timer, striker := s.striker, sliderX := s.sliderX,
       coins := CaptureAll(b.coins, dt, coinInPocket),
       pocketedCoins := b.pocketedCoins + Emissions(b.coins, dt, coinInPocket))
  }

  // ---------------------------------------------------------------- board edits used by the rules

  function Spawn(b: BoardState, color: Color): BoardState
  {
    b.(coins := b.coins + [NewCoin(NextId(b.coins), color)])
  }

  function CentreAt(b: BoardState, i: nat): BoardState
    requires i < |b.coins|
  {
    b.(coins := b.coins[i := Centred(b.coins[i])])
  }

  function RemoveAt(b: BoardState, i: nat): BoardState
    requires i < |b.coins|
  {
    b.(coins := Lists.Splice(b.coins, i))
  }

  /** The striker put back on its dock, idle, with the aim slider centred on it. */
  function Dock(b: BoardState): BoardState
  {
    b.(strikerState := Idle, striker := Docked, sliderX := StrikerDefaultX, strikerResetTimer := 0.0)
  }

  // ---------------------------------------------------------------- initial layout (board.js:330-395)

  /** The colour `getImageKey` gives its counter: odd counters are white, even ones black. */
  function ImageKey(ci: nat): Color
  {
    if ci % 2 == 1 then White else Black
  }

  /** The k-th coin `initialize` pushes: the inner ring, then the outer ring, then the queen. */
  function LayoutCoin(k: nat): Coin
  {
    if k < Ring1Count then Coin(k, ImageKey(k + 1), RingSlot(1, k), 0.0, 0.0, false, 0.0, false)
    else if k < Ring1Count + Ring2Count then
      Coin(k, ImageKey(k + 1), RingSlot(2, k - Ring1Count), 0.0, 0.0, false, 0.0, false)
    else Coin(k, Queen, Point(CenterX, CenterY), 0.0, 0.0, false, 0.0, false)
  }

  /** The first `n` coins of the layout, in the order `initialize` pushes them. */
  function Layout(n: nat): (r: seq<Coin>)
    ensures |r| == n
  {
    if n == 0 then [] else Layout(n - 1) + [LayoutCoin(n - 1)]
  }

  function InitialCoins(): seq<Coin>
  {
    Layout(Ring1Count + Ring2Count + 1)
  }

  function InitialBoard(): BoardState
  {
    BoardState(InitialCoins(), [], Idle, 0.0, Docked, StrikerDefaultX, 0, 0)
  }

  lemma {:induction false} LayoutAt(n: nat, k: nat)
    requires k < n
    ensures Layout(n)[k] == LayoutCoin(k)
  {
    if k < n - 1 {
      LayoutAt(n - 1, k);
    }
  }

  /** Coin k of the layout has id coin-k and is not captured, so ids are distinct and nothing is flagged. */
  lemma LayoutFresh(n: nat)
    ensures forall k :: 0 <= k < n ==> Layout(n)[k].id == k && !Layout(n)[k].pocket && !Layout(n)[k].processedPocket
    ensures DistinctIds(Layout(n)) && Flagged(Layout(n)) == multiset{}
  {
    forall k | 0 <= k < n ensures Layout(n)[k] == LayoutCoin(k) {
      LayoutAt(n, k);
    }
    NothingFlagged(Layout(n));
  }

  /**
   * The initial layout holds ring1Count + ring2Count + 1 coins with ids coin-0 .. coin-n in order,
   * all distinct, none of them captured.
   */
  lemma InitialLayout()
    ensures |InitialCoins()| == Ring1Count + Ring2Count + 1
    ensures forall k :: 0 <= k < |InitialCoins()| ==>
              InitialCoins()[k].id == k && !InitialCoins()[k].pocket && !InitialCoins()[k].processedPocket
    ensures DistinctIds(InitialCoins()) && Flagged(InitialCoins()) == multiset{}
  {
    LayoutFresh(Ring1Count + Ring2Count + 1);
  }

  /** The ring coins alternate white, black, ... starting with white, and the last coin is the queen. */
  lemma InitialColours()
    ensures forall k :: 0 <= k < Ring1Count + Ring2Count ==>
              InitialCoins()[k].color == (if k % 2 == 0 then White else Black)
    ensures InitialCoins()[Ring1Count + Ring2Count].color == Queen
  {
    forall k | 0 <= k <= Ring1Count + Ring2Count ensures InitialCoins()[k] == LayoutCoin(k) {
      LayoutAt(Ring1Count + Ring2Count + 1, k);
    }
  }

  lemma {:induction false} NothingFlagged(coins: seq<Coin>)
    requires forall k :: 0 <= k < |coins| ==> !coins[k].processedPocket
    ensures Flagged(coins) == multiset{}
  {
    if coins != [] {
      NothingFlagged(coins[1..]);
    }
  }

  /** `m` white-black pairs: the colours of 2m alternating ring coins starting with white. */
  function Pairs(m: nat): (r: seq<Color>)
    ensures |r| == 2 * m
  {
    if m == 0 then [] else Pairs(m - 1) + [White, Black]
  }

  lemma {:induction false} PairsCount(m: nat)
    ensures multiset(Pairs(m))[White] == m
    ensures multiset(Pairs(m))[Black] == m
    ensures multiset(Pairs(m))[Queen] == 0
  {
    if m > 0 {
      var p := Pairs(m - 1);
      PairsCount(m - 1);
      assert Pairs(m) == p + [White, Black];
      assert multiset(Pairs(m)) == multiset(p) + multiset{White, Black};
    }
  }

  lemma ColorsAppend(coins: seq<Coin>, c: Coin)
    ensures Colors(coins + [c]) == Colors(coins) + [c.color]
  {
  }

  /** `getImageKey` on odd counters gives white and on even counters black. */
  lemma ImageKeyAlternates(j: nat)
    ensures ImageKey(2 * j + 1) == White && ImageKey(2 * j + 2) == Black
  {
  }

  lemma RingCoinColour(k: nat)
    requires k < Ring1Count + Ring2Count
    ensures LayoutCoin(k).color == ImageKey(k + 1)
  {
  }

  /** The colours of the first 2m ring coins are m white-black pairs. */
  lemma {:induction false} LayoutColoursArePairs(m: nat)
    requires 2 * m <= Ring1Count + Ring2Count
    ensures Colors(Layout(2 * m)) == Pairs(m)
  {
    if m > 0 {
      LayoutColoursArePairs(m - 1);
      var k := 2 * m - 2;
      assert Layout(k + 2) == Layout(k) + [LayoutCoin(k)] + [LayoutCoin(k + 1)];
      ColorsAppend(Layout(k), LayoutCoin(k));
      ColorsAppend(Layout(k) + [LayoutCoin(k)], LayoutCoin(k + 1));
      ImageKeyAlternates(m - 1);
      RingCoinColour(k);
      RingCoinColour(k + 1);
    }
  }

  /** The colours of the initial layout: nine white-black pairs, then the queen. */
  lemma InitialColoursArePairs()
    ensures Colors(InitialCoins()) == Pairs(9) + [Queen]
  {
    LayoutColoursArePairs(9);
    ColorsAppend(Layout(18), LayoutCoin(18));
  }

  /** The initial board holds nine white coins, nine black coins and one queen. */
  lemma InitialColourCount()
    ensures multiset(Colors(InitialCoins()))[White] == 9
    ensures multiset(Colors(InitialCoins()))[Black] == 9
    ensures multiset(Colors(InitialCoins()))[Queen] == 1
  {
    InitialColoursArePairs();
    PairsCount(9);
    assert multiset(Pairs(9) + [Queen]) == multiset(Pairs(9)) + multiset{Queen};
  }

  // ---------------------------------------------------------------- the board object

  class Board {
    var coins: seq<Coin>
    var pocketedCoins: seq<Color>
    var strikerState: StrikerState
    var strikerResetTimer: real
    var striker: Striker
    var sliderX: real
    var score: int
    var halfTurns: nat

    function State(): BoardState
      reads this
    {
      BoardState(coins, pocketedCoins, strikerState, strikerResetTimer, striker, sliderX, score, halfTurns)
    }

    constructor ()
      ensures State() == BoardState([], [], Idle, 0.0, Docked, StrikerDefaultX, 0, 0)
    {
      coins := [];
      pocketedCoins := [];
      strikerState := Idle;
      strikerResetTimer := 0.0;
      striker := Docked;
      sliderX := StrikerDefaultX;
      score := 0;
      halfTurns := 0;
    }

    /** Lays out the two rings and the queen and resets the striker, timers, score and rotation. */
    method Initialize()
      modifies this
      ensures State() == InitialBoard()
    {
      coins := [];
      var ci: nat := 1;
      var coinIdCounter: nat := 0;
      for i := 0 to Ring1Count
        invariant ci == i + 1 && coinIdCounter == i && coins == Layout(i)
      {
        var color := ImageKey(ci);
        ci := ci + 1;
        coins := coins + [Coin(coinIdCounter, color, RingSlot(1, i), 0.0, 0.0, false, 0.0, false)];
        coinIdCounter := coinIdCounter + 1;
      }
      for i := 0 to Ring2Count
        invariant ci == Ring1Count + i + 1 && coinIdCounter == Ring1Count + i && coins == Layout(Ring1Count + i)
      {
        var color := ImageKey(ci);
        ci := ci + 1;
        coins := coins + [Coin(coinIdCounter, color, RingSlot(2, i), 0.0, 0.0, false, 0.0, false)];
        coinIdCounter := coinIdCounter + 1;
      }
      coins := coins + [Coin(coinIdCounter, Queen, Point(CenterX, CenterY), 0.0, 0.0, false, 0.0, false)];
      strikerState := Idle;
      strikerResetTimer := 0.0;
      striker := Docked;
      sliderX := StrikerDefaultX;
      score := 0;
      halfTurns := 0;
      pocketedCoins := [];
    }

    /** Marks coin `i` as emitted, so that it is never emitted again. */
    method RenderPocketedCoin(i: nat)
      requires i < |coins|
      modifies this
      ensures State() == old(State()).(coins := old(coins)[i := old(coins)[i].(processedPocket := true)])
    {
      coins := coins[i := coins[i].(processedPocket := true)];
    }

    method MoveCoinToCenter(i: nat)
      requires i < |coins|
      modifies this
      ensures State() == CentreAt(old(State()), i)
    {
      coins := coins[i := coins[i].(place := Point(CenterX, CenterY), vx := 0.0, vy := 0.0,
                                    pocket := false, pocketTimer := 0.0, processedPocket := false)];
    }

    method SpawnCoin(color: Color)
      modifies this
      ensures State() == Spawn(old(State()), color)
    {
      var coinIdCounter := if |coins| > 0 then MaxId(coins) + 1 else 0;
      coins := coins + [Coin(coinIdCounter, color, Point(CenterX, CenterY), 0.0, 0.0, false, 0.0, false)];
    }

    /** Turns the board half a turn; the positions it rotates are not part of this model. */
    method RotateBoard()
      modifies this
      ensures State() == old(State()).(halfTurns := old(halfTurns) + 1)
    {
      halfTurns := halfTurns + 1;
    }

    method ResetScore()
      modifies this
      ensures State() == old(State()).(score := 0)
    {
      score := 0;
    }

    function GetPocketedCoins(): seq<Color>
      reads this
    {
      pocketedCoins
    }

    method ClearPocketedCoins()
      modifies this
      ensures State() == old(State()).(pocketedCoins := [])
    {
      pocketedCoins := [];
    }

    function GetStrikerState(): StrikerState
      reads this
    {
      strikerState
    }

    method SetStrikerState(state: StrikerState)
      modifies this
      ensures State() == old(State()).(strikerState := state)
    {
      strikerState := state;
    }

    /**
     * The board's tick after the physics substeps, which leave the striker as `moved`:
     * the striker lifecycle, then the capture loop over the coins.
     */
    method Update(dt: real, moved: Striker, strikerInPocket: bool, coinInPocket: Coin -> bool)
      modifies this
      ensures State() == BoardStep(old(State()), dt, moved, strikerInPocket, coinInPocket)
    {
      StepStriker(dt, moved, strikerInPocket);
      CaptureCoins(dt, coinInPocket);
    }

    /** board.js:583-609 */
    method StepStriker(dt: real, moved: Striker, inPocket: bool)
      modifies this
      ensures var s := StrikerStep(old(strikerState), old(strikerResetTimer), moved, old(sliderX), dt, inPocket);
              State() == old(State()).(strikerState := s.state, strikerResetTimer := s.timer,
                                       striker := s.striker, sliderX := s.sliderX)
    {
      striker := moved;
      if strikerState == Moving && inPocket {
        strikerState := Pocket;
        strikerResetTimer := 0.0;
        striker := striker.(vx := 0.0, vy := 0.0);
      }
      if strikerState == Moving && striker.vx == 0.0 && striker.vy == 0.0 {
        strikerResetTimer := strikerResetTimer + dt;
        if strikerResetTimer >= SettleTime {
          strikerState := Idle;
          striker := striker.(x := StrikerDefaultX, y := StrikerDefaultY);
          sliderX := StrikerDefaultX;
          strikerResetTimer := 0.0;
        }
      }
      if strikerState == Pocket {
        strikerResetTimer := strikerResetTimer + dt;
        if strikerResetTimer >= SettleTime {
          strikerState := Idle;
          striker := Docked;
          sliderX := StrikerDefaultX;
          strikerResetTimer := 0.0;
        }
      }
    }

    /** board.js:612-622: the capture bookkeeping of coin `i` in one tick. */
    method CaptureCoin(i: nat, dt: real, inPocket: bool)
      requires i < |coins|
      modifies this
      ensures var r := Captured(old(coins)[i], dt, inPocket);
              State() == old(State()).(coins := old(coins)[i := r.coin],
                                       pocketedCoins := old(pocketedCoins) + (if r.emitted then [old(coins)[i].color] else []))
    {
      var c := coins[i];
      if !c.pocket && !c.processedPocket && inPocket {
        c := c.(pocket := true, pocketTimer := 0.0);
        coins := coins[i := c];
      }
      if c.pocket && !c.processedPocket {
        c := c.(pocketTimer := c.pocketTimer + dt);
        coins := coins[i := c];
        if c.pocketTimer >= SettleTime {
          pocketedCoins := pocketedCoins + [c.color];
          RenderPocketedCoin(i);
        }
      }
    }

    /** board.js:611-624: the capture loop, walking the coins from the last to the first. */
    method CaptureCoins(dt: real, coinInPocket: Coin -> bool)
      modifies this
      ensures State() == old(State()).(coins := CaptureAll(old(coins), dt, coinInPocket),
                                       pocketedCoins := old(pocketedCoins) + Emissions(old(coins), dt, coinInPocket))
    {
      var i := |coins|;
      while i > 0
        invariant 0 <= i <= |coins| == |old(coins)|
        invariant forall k :: 0 <= k < i ==> coins[k] == old(coins)[k]
        invariant forall k :: i <= k < |coins| ==>
                    coins[k] == Captured(old(coins)[k], dt, coinInPocket(old(coins)[k])).coin
        invariant pocketedCoins == old(pocketedCoins) + Emissions(old(coins)[i..], dt, coinInPocket)
        invariant State() == old(State()).(coins := coins, pocketedCoins := pocketedCoins)
      {
        i := i - 1;
        CaptureCoin(i, dt, coinInPocket(coins[i]));
        assert old(coins)[i..][1..] == old(coins)[i + 1..];
      }
      assert coins == CaptureAll(old(coins), dt, coinInPocket);
    }
  }
}
