# Carrom rules engine

A Dafny model of the discrete rules engine of a browser carrom game: the game manager's
per-frame update (pocket records, scoring, the queen and its cover, the striker foul, the
win reset and the turn decision), the player record, and the board's coin bookkeeping
(coin list and ids, capture flags, the one-shot emission of pocket records, the striker
lifecycle and the initial layout).

The model follows the program's objects:

- `Pieces`: coin colours (`White`, `Black`, `Queen`) and `Option`.
- `Lists`: the two array primitives the engine uses, `indexOf` and `splice(i, 1)`.
- `Players`: the `Player` class. Its fields change in place, and its methods are proved
  against the function `TakeBack` and the `PlayerState` value.
- `Boards`: the `Board` class, the pure board steps it is proved against (`StrikerStep`,
  `Captured`, `CaptureAll`, `Emissions`, `BoardStep`, `Spawn`, `CentreAt`, `RemoveAt`,
  `Dock`), and the initial layout (`Layout`, `InitialBoard`).
- `Rules`: the whole game as a value (`Game`), and the manager's behaviour as functions on it.
  `Tick` is one call of `update`.
- `Manager`: the `GameManager` class. Every method is proved to change the board, the players
  and its own fields exactly as a `Rules` function says: the function of the same name, or for
  the three record methods `QueenPocketed`, `OwnPocketed` and `OpponentPocketed`. `Update` is
  proved equal to `Tick`.
- `Conservation`: coin accounting. Every coin is on the board, in a player's bank, or held back
  as the queen awaiting its cover. The lemmas show that each rule only moves coins between these
  places, and they locate the one place where the program loses a coin.
- `Banking`: banked coins are paid for. A player's banked coins, with the queen held back for
  them, never outnumber their score above zero, and a player banks only their own colour and the
  queen. Every tick keeps this, as written and with the correction.
- `Consumption`: every capture is consumed. Each record of a tick clears the capture flag of one
  coin of its colour, so no coin stays flagged and no record waits after any tick.
- `Properties`: the rules stated as input/output facts, one lemma per branch of `update`.

Physics is not part of the model. `Board.Update` and `GameManager.Update` take the outcome of the
six physics substeps as parameters:

- `moved`: the striker as the substeps leave it;
- `strikerInPocket`: whether the striker lies in a pocket;
- `coinInPocket`: a predicate telling which coins lie in a pocket.

Timers are reals compared against the one-second settle time. The board's 180-degree rotation is
counted in `halfTurns`.

`Tick` and the resolution functions take a flag `returnQueen`. With `false` they are the program
as written, and `GameManager` is proved against that. With `true` they return a held-back queen
to the board when the turn passes. This is the correction recorded under Findings.

What the code does that a reader may not expect:

- At score 0, pocketing an own coin or the queen raises the score to 1. That is above zero, so
  the coin is banked (the queen is held back) rather than returned to the centre.
- A moving striker's reset timer is never cleared while the striker still moves. The timer keeps
  adding time over every at-rest tick of a shot.
- A striker that falls into a pocket gets its timer set to 0. In the same tick the timer grows by
  `dt`, so a striker pocketed in a tick with `dt >= 1` is back on its dock at once.
- A queen record that arrives while the player still owes a cover is ignored. The queen is off the
  board whenever a cover is owed (`Consumption.QueenOffBoardWhileHeld`), so this case is never
  reached, and every record of a tick finds its coin (`Consumption.TickConsumesEveryCapture`).

## Model

| member | source | states |
|---|---|---|
| Lists.IndexOf | public/player.js:38 | `indexOf`: -1 exactly when the element is absent, otherwise the position of its first occurrence |
| Lists.Splice | public/player.js:40 | `splice(i, 1)`: one element shorter, the prefix kept, the tail shifted down one place, and the multiset loses exactly `s[i]` |
| Players.TakeBackChoosesCoin | public/player.js:37-49 | the refund takes the first banked queen if there is one, else the first banked coin of the player's colour, else nothing; it removes exactly that occurrence and keeps the other entries in order; the bank minus the refund is the old bank |
| Players.TakeBackKeepsOtherColours | public/player.js:37-49 | a refund never removes a coin of the opponent's colour |
| Players.Player.constructor | public/player.js:2-9 | a new player has score 0, no banked coins and no pending queen |
| Players.Player.AddScore | public/player.js:11-13 | the score changes by exactly `points`; nothing else changes |
| Players.Player.ResetScore | public/player.js:27-31 | score 0, empty bank, no pending queen; the colour is kept |
| Players.Player.AddPocketedCoin | public/player.js:33-35 | the colour is appended after every coin banked so far |
| Players.Player.RemovePocketedCoin | public/player.js:37-49 | the returned coin and the new bank are those `TakeBack` chooses; score and queen flag are unchanged |
| Players.Player.SetPendingQueen | public/player.js:51-57 | `HasPendingQueen()` then answers `pending`; nothing else changes |
| Boards.Centred | public/board.js:184-193 | a coin moved to the centre is the coin `spawnCoin` would create with the same id and colour: at the centre, at rest, both capture flags down, timer 0 |
| Boards.MaxId | public/board.js:196 | the maximum numeric id suffix: no coin has a larger one, and some coin has exactly it |
| Boards.NextId | public/board.js:196 | the new id is 0 on an empty board; otherwise it is one past some existing id and larger than every existing id |
| Boards.SpawnKeepsIdsDistinct | public/board.js:195-213 | spawning a coin never duplicates an id |
| Boards.CaptureBookkeeping | public/board.js:612-622 | capture keeps a coin's id, colour, place and velocity; a free coin in a pocket is captured with its timer starting this tick; a captured coin accumulates `dt`; a record is emitted exactly when the coin becomes processed, which happens once its timer reaches one second; a processed coin is left alone |
| Boards.CaptureAll | public/board.js:611-624 | every coin goes through its own capture step, and the list keeps its length |
| Boards.CaptureEmitsEachCaptureOnce | public/board.js:611-624 | capture never changes a colour; the records of a tick are exactly the colours of the coins that became processed in it, so each capture is emitted once and never again |
| Boards.StrikerStep | public/board.js:583-609 | an idle or aiming striker is untouched; a moving striker in a pocket stops, is pocketed with its timer at `dt`, and is idle at once when `dt` reaches one second; a moving striker at rest stays moving with `timer + dt` and docks when that reaches one second; a pocketed striker stays pocketed with `timer + dt` and docks when that reaches one second; a pocketed striker keeps its place and the slider; a striker that becomes idle is docked with its timer 0 and the slider at the default position |
| Boards.InitialLayout | public/board.js:330-395 | the layout has ring1Count + ring2Count + 1 coins with ids 0..n in order, all distinct, none captured |
| Boards.InitialColours | public/board.js:330-395 | the ring coins alternate white, black, ... starting with white, and the last coin is the queen |
| Boards.InitialColoursArePairs | public/board.js:330-395 | the colours of the layout are nine white-black pairs followed by the queen |
| Boards.InitialColourCount | public/board.js:330-395 | the initial board holds nine white coins, nine black coins and one queen |
| Boards.Board.constructor | public/board.js:2-17 | a new board has no coins, no records, an idle striker, timer 0, score 0 and no rotation; the striker and slider, which `initialize` creates, start at the dock |
| Boards.Board.Initialize | public/board.js:245-401 | the loops lay out exactly `InitialBoard()`: the two rings, then the queen, and the striker state, timer, score, rotation and records reset |
| Boards.Board.RenderPocketedCoin | public/board.js:159-182 | marks the coin processed and changes nothing else |
| Boards.Board.MoveCoinToCenter | public/board.js:184-193 | only coin `i` changes, to `Centred` of itself |
| Boards.Board.SpawnCoin | public/board.js:195-213 | appends exactly one coin `NewCoin(NextId(coins), color)` |
| Boards.Board.RotateBoard | public/board.js:526-557 | counts one more half turn; nothing the rules read changes |
| Boards.Board.ResetScore | public/board.js:700-702 | the board score becomes 0 |
| Boards.Board.ClearPocketedCoins | public/board.js:708-710 | the record list becomes empty; nothing else changes |
| Boards.Board.SetStrikerState | public/board.js:676-678 | only the striker state changes |
| Boards.Board.Update | public/board.js:559-624 | the board's tick is `BoardStep`: the striker lifecycle, then capture over every coin |
| Boards.Board.StepStriker | public/board.js:583-609 | the striker fields become what `StrikerStep` gives; nothing else changes |
| Boards.Board.CaptureCoin | public/board.js:612-622 | coin `i` becomes its capture result, and its colour is appended to the records exactly when the capture emits |
| Boards.Board.CaptureCoins | public/board.js:611-624 | the loop from the last coin to the first leaves `CaptureAll` of the coins and appends `Emissions` to the records |
| Rules.Opponent | public/manager.js:45-47 | `(i + 1) % 2` for two players is the other seat, never the current one |
| Rules.FindProcessed | public/manager.js:103 | `findIndex`: the first coin of the record's colour with `processedPocket` set, or -1 exactly when there is none |
| Rules.FindProcessedFindsFlagged | public/manager.js:103 | a record finds its coin exactly when a coin of that colour is flagged as emitted |
| Rules.ResetGame | public/manager.js:64-77 | the initial board, both players reset with their colours kept, seat 0 to shoot, `firstTurn` set, and every turn field cleared: no shot started, turn score 0, no records, no keep or switch flag, no queen pocketed this turn, no cover shot, no held-back queen |
| Manager.GameManager.constructor | public/manager.js:5-39 | construction followed by `initialize` gives `InitialGame()`: the initial board, white and black players with score 0, seat 0 to shoot, first turn |
| Manager.GameManager.GetCurrentPlayer | public/manager.js:41-43 | the player in the current seat |
| Manager.GameManager.GetOpponentPlayer | public/manager.js:45-47 | the player in the other seat, never the current player |
| Manager.GameManager.AddScoreTo | public/manager.js:110 | adds `points` to one seat and returns that player's new score |
| Manager.GameManager.SetPendingQueenOf | public/manager.js:114 | sets one seat's pending-queen flag |
| Manager.GameManager.BankFor | public/manager.js:135 | appends a colour to one seat's bank |
| Manager.GameManager.ClearTurn | public/manager.js:52-57 | clears the board score, the shot's score and records, and the turn flags |
| Manager.GameManager.DockStriker | public/manager.js:87-93 | the striker idle at its dock, at rest, timer 0, slider at the default position |
| Manager.GameManager.SwitchTurn | public/manager.js:49-62 | the game becomes `Rules.SwitchTurn` of the old game |
| Manager.GameManager.PassSeat | public/manager.js:50-51 | the other seat shoots, and the board turns half a turn |
| Manager.GameManager.DropPendingQueen | public/manager.js:58-60 | no cover shot, no held-back queen, and the new player owes no cover |
| Manager.GameManager.ResetGame | public/manager.js:64-77 | the game becomes `Rules.ResetGame` of the old game |
| Manager.GameManager.StartCoverTurn | public/manager.js:79-95 | the game becomes `Rules.StartCoverTurn` of the old game |
| Manager.GameManager.RemoveCoin | public/manager.js:123-124 | the consumed coin is spliced out of the board's list |
| Manager.GameManager.CentreCoin | public/manager.js:117 | the consumed coin goes back to the centre |
| Manager.GameManager.ScoreShot | public/manager.js:111-112 | the shot's score goes up by one and the turn is kept |
| Manager.GameManager.HoldQueen | public/manager.js:113-115 | the queen is held back and the player owes a cover |
| Manager.GameManager.ReleaseQueen | public/manager.js:118-121 | no queen is held back and no cover is owed |
| Manager.GameManager.QueenRecord | public/manager.js:110-125 | the game becomes `QueenPocketed`: a point, and the queen held back above zero or re-centred otherwise |
| Manager.GameManager.BankCoin | public/manager.js:135-137 | the coin leaves the board for one seat's bank |
| Manager.GameManager.CoverQueen | public/manager.js:138-144 | a held-back queen is banked after the covering coin, and the obligation ends |
| Manager.GameManager.OwnRecord | public/manager.js:127-145 | the game becomes `OwnPocketed`: a point, and the coin banked (with a held-back queen) above zero or re-centred otherwise |
| Manager.GameManager.OpponentRecord | public/manager.js:146-156 | the game becomes `OpponentPocketed`: the opponent's point, and the coin banked to them above zero or re-centred otherwise |
| Manager.GameManager.ApplyRecord | public/manager.js:101-158 | one record goes on the turn's list and is consumed as `Rules.ApplyRecord` says |
| Manager.GameManager.ConsumeRecord | public/manager.js:103-157 | the lookup and the dispatch by colour equal `Consume` |
| Manager.GameManager.CoverFailed | public/manager.js:176-187 | the game becomes `Rules.CoverFailed` of the old game |
| Manager.GameManager.RefundFrom | public/manager.js:192 | the refunded coin and the player's new bank are those `TakeBack` chooses |
| Manager.GameManager.StrikerFoul | public/manager.js:190-196 | the game becomes `Rules.StrikerFoul` of the old game, with the turn change as written |
| Manager.GameManager.PayBack | public/manager.js:192-195 | the refunded coin, if any, is spawned at the centre |
| Manager.GameManager.KeepTurn | public/manager.js:208-216 | the same player shoots again from the dock, with no cover shot |
| Manager.GameManager.ContinueTurn | public/manager.js:198-217 | the same player shoots again: a cover shot if a queen is owed, otherwise a plain shot |
| Manager.GameManager.ResolveShot | public/manager.js:190-227 | the foul, keep-turn, cover-turn and pass-turn branches equal `Rules.ResolveShot` |
| Manager.GameManager.Resolve | public/manager.js:175-228 | a failed cover or `ResolveShot`, as `Rules.Resolve` says |
| Manager.GameManager.Settle | public/manager.js:163-228 | the win reset, the start-of-shot latch and the resolution equal `Rules.Settle` |
| Manager.GameManager.ApplyBatch | public/manager.js:101-159 | the loop applies the records in order: `ApplyRecords` of the old game |
| Manager.GameManager.DrainRecords | public/manager.js:99-161 | the tick's records are applied, then the board's list is cleared |
| Manager.GameManager.Update | public/manager.js:97-229 | one frame is `Tick` of the old game with the turn change as written |
| Conservation.SpawnAdds | public/board.js:195-213 | spawning puts exactly its colour on the board |
| Conservation.CentreKeeps | public/board.js:184-193 | re-centring keeps every colour on the board |
| Conservation.RemoveTakes | public/manager.js:124 | splicing a coin out removes exactly its colour from the board |
| Conservation.BankAdds | public/player.js:33-35 | banking adds exactly that colour to the banks |
| Conservation.ScoreKeepsBanks | public/player.js:11-13 | a score change leaves the banks alone |
| Conservation.PendingKeepsBanks | public/player.js:51-53 | the pending-queen flag leaves the banks alone |
| Conservation.RefundTakes | public/player.js:37-49 | a refund takes exactly the coin it hands back out of the banks |
| Conservation.PayBackKeeps | public/manager.js:191-195 | the striker foul's refund puts the coin it hands back, if any, on the board and takes it out of the banks; the held slot is unchanged |
| Conservation.QueenPocketedKeeps | public/manager.js:110-125 | nothing was held before; above zero the queen leaves the board and is held, otherwise it stays on the board and nothing is held; no bank changes; the held coin is the queen and the player owes a cover exactly when it is held |
| Conservation.BankedKeeps | public/manager.js:135-137 | the coin leaves the board and is appended to that seat's bank; the held slot is unchanged |
| Conservation.CoveredKeeps | public/manager.js:138-144 | with a queen held, the queen leaves the held slot and is appended to the player's bank, the board unchanged; without one nothing changes |
| Conservation.OwnPocketedKeeps | public/manager.js:127-145 | an own-colour record only moves coins between the board, the bank and the held slot |
| Conservation.OpponentPocketedKeeps | public/manager.js:146-156 | above zero the coin leaves the board and is appended to the opponent's bank; otherwise board and banks are unchanged; the held slot is unchanged |
| Conservation.ApplyRecordKeeps | public/manager.js:101-158 | one record keeps the inventory and the queen invariant |
| Conservation.ApplyRecordsKeep | public/manager.js:101-159 | a whole batch keeps the inventory and the queen invariant |
| Conservation.DrainKeeps | public/manager.js:97-161 | the board's tick and its batch of records keep the inventory and the queen invariant |
| Conservation.SwitchTurnDropsHeld | public/manager.js:49-62 | `switchTurn` as written loses exactly the held-back queen and keeps every other coin |
| Conservation.PassTurnKeeps | public/manager.js:49-62 | the corrected turn change puts the held-back queen, if any, on the board, empties the held slot, leaves the banks alone and loses nothing |
| Conservation.PassTurnAsWrittenLoses | public/manager.js:49-62 | the turn change as written never gains a coin |
| Conservation.CoverFailedKeeps | public/manager.js:176-187 | the queen was held; after a failed cover it is on the board, nothing is held and no bank changes |
| Conservation.StrikerFoulKeeps | public/manager.js:190-196 | a foul never gains a coin, and with the correction it loses none |
| Conservation.ResolveKeeps | public/manager.js:175-228 | turn resolution never gains a coin, and with the correction it loses none |
| Conservation.ResetGameIsFull | public/manager.js:64-77 | a reset holds exactly nine white coins, nine black coins and the queen, and owes no cover |
| Conservation.SettleKeeps | public/manager.js:163-228 | after the records: the full set after a win; otherwise no coin gained, and none lost with the correction |
| Conservation.ResolutionKeeps | public/manager.js:168-228 | without a win, the latch keeps every coin and resolution gains none |
| Conservation.InitialGameIsFull | public/manager.js:26-39 | the start of the game holds the full set and owes no cover |
| Conservation.TickConservesCoins | public/manager.js:97-229 | with the held-back queen returned on a turn change, every frame keeps the nine white coins, nine black coins and the queen, each on the board, banked or held |
| Conservation.TickAsWrittenNeverGains | public/manager.js:97-229 | as written, a frame never creates a coin |
| Conservation.ExampleBoardStep | public/board.js:583-624 | in the example frame the black coin and the queen both settle and emit, black first, and the striker docks |
| Conservation.ExampleRecords | public/manager.js:101-161 | the example's records bank black's coin to the black player and hold the queen back for white |
| Conservation.ExampleBlackRecord | public/manager.js:146-156 | the example's black record scores and banks for the black player |
| Conservation.ExampleTick | public/manager.js:97-229 | the example frame reaches resolution in the drained state |
| Conservation.QueenLostWhenTurnPasses | public/manager.js:49-62 | as written, after the example frame the turn has passed, black has banked its coin, and the queen is not on the board, in no bank and held by no one |
| Conservation.QueenReturnedWhenTurnPasses | public/manager.js:49-62 | with the correction, the same frame puts the queen back at the centre and keeps both coins |
| Boards.FlaggedSplice | public/manager.js:124 | a coin spliced out of the list takes its capture flag with it |
| Boards.FlaggedUpdate | public/board.js:184-193 | a coin replaced in the list swaps its flag for the new coin's |
| Boards.FlaggedAppend | public/board.js:195-213 | a coin appended to the list adds its flag, if any |
| Banking.RefundPaid | public/player.js:37-49 | a player who loses a point and pays back the coin `TakeBack` chooses still has a bank no larger than their positive score and still holds none of the opponent's colour: a non-empty bank always has a queen or an own-colour coin to give back |
| Banking.QueenPocketedBacked | public/manager.js:110-125 | the queen record keeps both banks paid for: the queen's point pays for holding it |
| Banking.OwnPocketedBacked | public/manager.js:127-145 | an own-colour record keeps both banks paid for |
| Banking.CoveredBacked | public/manager.js:138-144 | a cover banks the held-back queen, already paid for, after the covering coin, paid for by its own point |
| Banking.OpponentPocketedBacked | public/manager.js:146-156 | an opponent-colour record keeps both banks paid for: the coin is the opponent's own colour and comes with the opponent's point |
| Banking.ApplyRecordBacked | public/manager.js:101-158 | one record keeps both banks paid for |
| Banking.ApplyRecordsBacked | public/manager.js:101-159 | a whole batch keeps both banks paid for |
| Banking.PassTurnBacked | public/manager.js:49-62 | a turn change, as written or corrected, leaves both banks paid for with nothing held |
| Banking.CoverFailedBacked | public/manager.js:176-187 | a failed cover takes back the queen's point together with the queen |
| Banking.StrikerFoulBacked | public/manager.js:190-196 | the foul's lost point is matched by the coin paid back |
| Banking.ContinueTurnBacked | public/manager.js:198-217 | shooting again, plainly or as a cover shot, keeps both banks paid for |
| Banking.ResolveShotBacked | public/manager.js:190-227 | every branch of the resolution after a shot keeps both banks paid for |
| Banking.ResolveBacked | public/manager.js:175-228 | turn resolution keeps both banks paid for |
| Banking.ResetGameBacked | public/manager.js:64-77 | a reset keeps the seats' colours and empties both banks |
| Banking.SettleBacked | public/manager.js:163-228 | the win check, the latch and resolution keep both banks paid for |
| Banking.InitialGameBacked | public/manager.js:26-39 | the game starts with both banks paid for |
| Banking.TickKeepsBanksBacked | public/manager.js:97-229 | every frame, as written or corrected, keeps both banks paid for: a player with a banked coin has a score above zero, and white never banks black nor black white |
| Consumption.QueenOffBoardWhileHeld | public/manager.js:106-109 | in a game with at most one queen, no queen is on the board, nor flagged, while one is held back |
| Consumption.ConsumedCoin | public/manager.js:116-158 | a record's coin, re-centred or spliced out, loses exactly its capture flag |
| Consumption.QueenPocketedConsumes | public/manager.js:110-125 | the queen record re-centres or splices out its coin and changes no other coin |
| Consumption.OwnPocketedConsumes | public/manager.js:127-145 | an own-colour record re-centres or splices out its coin; a cover changes no coin |
| Consumption.OpponentPocketedConsumes | public/manager.js:146-156 | an opponent-colour record re-centres or splices out its coin |
| Consumption.ApplyRecordConsumes | public/manager.js:101-158 | a record whose colour is flagged clears exactly one flag of that colour |
| Consumption.ApplyRecordsConsume | public/manager.js:101-159 | a batch whose records are exactly the flagged colours leaves no coin flagged |
| Consumption.BoardStepFlagsRecords | public/board.js:611-624 | from a board with no flag and no record, the tick flags exactly the colours it records |
| Consumption.DrainConsumes | public/manager.js:99-161 | after the board's tick and its batch, no coin is flagged and no record waits |
| Consumption.SpawnUnflagged | public/board.js:195-213 | a spawned coin carries no flag |
| Consumption.PassTurnUnflagged | public/manager.js:49-62 | a turn change flags no coin and leaves the record list alone |
| Consumption.StrikerFoulUnflagged | public/manager.js:190-196 | a foul flags no coin and leaves the record list alone |
| Consumption.CoverFailedUnflagged | public/manager.js:176-187 | a failed cover flags no coin and leaves the record list alone |
| Consumption.ResolveShotUnflagged | public/manager.js:190-227 | the resolution after a shot flags no coin and leaves the record list alone |
| Consumption.ResolveUnflagged | public/manager.js:175-228 | turn resolution flags no coin and leaves the record list alone |
| Consumption.SettleUnflagged | public/manager.js:163-228 | after the batch, no coin becomes flagged and no record appears, a reset included |
| Consumption.InitialGameQuiet | public/manager.js:26-39 | the game starts within the full set with no coin flagged and no record waiting |
| Consumption.TickConsumesEveryCapture | public/manager.js:97-229 | every frame, as written or corrected, consumes every capture it flags: from a game within the full set with no flag and no record, it ends the same way |
| Properties.SwitchTurnToggles | public/manager.js:41-50 | the turn goes to the other seat, and two turn changes bring it back |
| Properties.SwitchTurnClears | public/manager.js:49-62 | the shot's score, records and flags, the cover, the held queen and `turnStarted` are cleared; the new player owes no cover; the leaving player, the coins and `firstTurn` are kept; the board turns once |
| Properties.StartCoverTurnKeepsPlayer | public/manager.js:79-95 | the player is kept, a cover is demanded, the shot's context is cleared and the striker is docked; players, coins and the held queen are kept |
| Properties.RecordWithoutCoin | public/manager.js:102-104 | a record whose coin is not found only goes on the turn's list |
| Properties.QueenWhileOwedIgnored | public/manager.js:106-109 | a queen record while a cover is owed changes no score and no coin |
| Properties.QueenRecordRule | public/manager.js:110-125 | a queen record without a cover owed: a point and the turn kept; above zero the queen leaves the board and is held, owed a cover; at or below zero it is re-centred and nothing is owed; no coin is banked and the opponent is untouched |
| Properties.OwnRecordRule | public/manager.js:127-145 | an own-colour record: a point and the turn kept; above zero the coin leaves the board for the bank, followed by a held queen, which is covered; otherwise the coin is re-centred; the opponent is untouched |
| Properties.OpponentRecordRule | public/manager.js:146-156 | an opponent-colour record: the opponent scores and the turn is to pass; above zero the coin goes to the opponent's bank, otherwise it is re-centred; the current player is untouched |
| Properties.WinResets | public/manager.js:163-166 | a score of ten or more on either side resets the board, both players, the seat, `firstTurn` and every turn field |
| Properties.MovingStrikerLatches | public/manager.js:168-173 | while the striker moves the shot is only marked as started |
| Properties.NoShotNoResolution | public/manager.js:175 | before a shot starts nothing is resolved |
| Properties.CoverFailedRule | public/manager.js:176-187 | a failed cover costs a point, ends the obligation, spawns the queen at the centre and passes the turn |
| Properties.StrikerFoulRule | public/manager.js:190-196 | a pocketed striker costs a point, takes back the coin `TakeBack` chooses, spawns it at the centre and passes the turn |
| Properties.PayBackFacts | public/manager.js:191-195 | the refund changes only the player's bank and the coin list, which gains the refunded coin |
| Properties.PassTurnKeepsLeaver | public/manager.js:49-62 | a turn change leaves the player who hands over the turn as they were |
| Properties.KeepTurnRule | public/manager.js:198-217 | a scoring shot with no foul and no opponent coin keeps the player, as a cover shot exactly when a queen is owed |
| Properties.EmptyShotRule | public/manager.js:221-227 | a shot that pocketed nothing starts a cover turn if a queen is owed, otherwise passes the turn |
| Properties.PassRule | public/manager.js:218-220 | a shot that pocketed an opponent's coin, or scored nothing, passes the turn |
| Properties.SettleEmptiesRecords | public/manager.js:161-228 | nothing after the batch puts a record back on the board's list |
| Properties.ResolveEmptiesRecords | public/manager.js:175-228 | resolution leaves the board's record list as it was |
| Properties.ResolveShotKeepsRecords | public/manager.js:190-227 | the foul, keep-turn, cover-turn and pass-turn branches leave the record list as it was |
| Properties.PassTurnKeepsRecords | public/manager.js:49-62 | a turn change leaves the record list as it was |
| Properties.TickEmptiesRecords | public/manager.js:161 | the board's record list is empty after every `update` |

## Left out

- Rigid-body physics is not modelled: the substeps, collisions, friction, walls and the pocket pull-in (public/board.js:47-157). It is floating-point numerics. Its outcome is a parameter of `Board.Update`.
- The pocket geometry is not modelled (`getContainingPocket`, `checkPocket`). It is replaced by `strikerInPocket` and `coinInPocket`.
- The idle striker following the slider handle (public/board.js:575-578) is not modelled separately. It is part of the `moved` striker passed in.
- `RotateBoard` does not rotate positions. The cos/sin of pi and the slider clamping are floats, so the model only counts half turns. `rotateCentralCoins` is not part of this model either.
- Ring coin positions are symbolic (`RingSlot`) rather than the cos/sin coordinates.
- Sprites, DOM score and turn text, graphics, the HTML sliders and the pointer and slingshot handlers (public/manager.js:231-373) are left out as user interface.
- public/main.js is not part of this model. Its `ring1Count` 6 and `ring2Count` 12 are the constants `Ring1Count` and `Ring2Count`.
- The `time` argument of `update` is unused by the rules and is left out. `delta / 1000` is the parameter `dt`.
- `processedPocket = false` on the consumed coin (public/manager.js:158) changes nothing on the board: the coin has either been spliced out or already re-centred. What it does change is the queen object held in `pendingQueenCoin`, and the model stores that coin with the flag cleared.
- Player ids and names are stored but never read by the rules.
- The manager is modelled with a fixed array of two players, one white and one black, as the program creates them.

## Findings

| source | as written | input that shows it | evidently intended | confidence | as-written member | corrected member |
|---|---|---|---|---|---|---|
| public/manager.js:49-62 | `switchTurn` sets `pendingQueenCoin` to null without putting the held-back queen back on the board. When the turn passes while the queen is held (the queen pocketed together with an opponent's coin, or together with the striker), the queen is in no bank, not on the board and held by no one for the rest of the game | white to shoot at 0-0; the queen and a black coin have lain in pockets for 0.5 s and the striker has rested for 0.5 s; the next 0.5 s frame banks black's coin to black, holds the queen for white, and passes the turn | the held-back queen returns to the centre when the turn passes, as it does after a failed cover (public/manager.js:183) | not executed | Conservation.QueenLostWhenTurnPasses | Conservation.TickConservesCoins |
