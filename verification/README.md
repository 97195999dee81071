# Battleship with signed shots, and a deposit alert rule

This project models two independent pieces of a collection of tutorial
samples.

**The two-player Battleship game.** Each player commits ten ship tiles as
signatures of their coordinates (`joinGame`). Once both have joined, each
turn goes like this:

- every player fires one shot (`takeAShot`);
- every player signs, for each player's recorded shot, the coordinate that
  was fired, and the game counts a hit when that signature is one of the
  reporter's committed tiles (`reportHits`, which emits a `ShotReport` per
  proof);
- the turn is closed (`endTurn`). A fleet whose confirmed hits reach ten is
  destroyed, and the game ends when at most one fleet is left.

`getWinner` names the survivor. It returns the zero address when both fleets
went down in the same turn.

The contract's own source is not part of this model. Its behaviour is the
behaviour its test suite pins down: the fixtures, the assertions, the revert
reasons and the `playTurns` driver. The client helpers that sign ship tiles
and build shot proofs are modelled too.

Files:

- `battleship.dfy`: the game as a class with the state it updates, one method
  per transaction. The caller (`msg.sender`) is a parameter. A revert is a
  `Fail` outcome that leaves the state unchanged.
- `game_utils.dfy`: the client-side signing helpers.
- `game_driver.dfy`: the proof builder and the turn driver.
- `scenarios.dfy`: the test suite's fixtures and tests, stated as methods
  whose contracts and assertions hold.
- `crypto.dfy`: the signing capability, a deterministic stand-in.
  Recovering from a signature over a digest yields the signer's address.
  A signer has more than one signature that recovers alike, as with ECDSA.
  A signature over one digest does not recover to its signer over another.

**The deposit alert rule.** A transaction handler looks at each `Deposited`
log that the configured contract emitted. For each one it raises:

- a "New deposit!" finding (`deposit-001`), always;
- a small-deposit finding (`deposit-002`) when the amount is below the
  network's minimum;
- a blacklist finding (`deposit-003`) when the sender is blacklisted.

The findings come in that order, log after log. Files:

- `findings.dfy`: the finding record and `createFinding`.
- `deposit_agent.dfy`: the handler, as a loop with conditional pushes proved
  against a specification function, and that function's properties.
- `deposit_scenarios.dfy`: the network configuration and the handler's three
  test transactions.

Amounts are integer wei.

The query functions of the game class (`IsGameStarted`, `IsGameOver`,
`IsTurnOver`, `HasReportedShots`, `PlayerHasPlayed`, `DestroyedPlayers`,
`PlayerShots`, `HitCount`) read the state directly. The methods' contracts are
stated in their terms, and the scenario tests assert their values at each
fixture.

After `gameOverShots` the owner, ten of whose tiles were hit, is destroyed.
So a report's hits count against the reporter's own fleet: `HitCount(p)` is
the number of hits `p`'s fleet has taken.

## Model

| member | source | states |
|---|---|---|
| Crypto.Sign | coding-articles/tobetek-article-game-of-battleship/code/test/Verify.ts:29-41 | recovering from a digest and the signature a key made over it yields that key's address |
| GameUtils.PackCoordinate | coding-articles/tobetek-article-game-of-battleship/code/utils/game.ts:32 | packing as two `uint8` gives two bytes, x then y |
| GameUtils.CoordinateHashInjective | coding-articles/tobetek-article-game-of-battleship/code/utils/game.ts:32-33 | two on-board coordinates hash alike exactly when they are equal, so the hash depends only on the coordinate |
| GameUtils.TileSignatureInjective | coding-articles/tobetek-article-game-of-battleship/code/utils/game.ts:31-35 | one signer's signatures of two coordinates are equal exactly when the coordinates are |
| GameUtils.SignCoordinate | coding-articles/tobetek-article-game-of-battleship/code/utils/game.ts:31-36 | fails exactly when a value does not fit a `uint8`; otherwise returns the hash it signed, and recovery from that hash and signature yields the signer's address |
| GameUtils.SignShipCoordinates | coding-articles/tobetek-article-game-of-battleship/code/utils/game.ts:17-29 | succeeds exactly when every tile fits the board; then one list per ship, in order, each holding the signer's signature of each tile in order |
| BattleShip.PlaceTiles | coding-articles/tobetek-article-game-of-battleship/code/test/Battleship.ts:364-379 | the tiles are accepted exactly when no signature repeats, and then the placed set is the given signatures, as many as were given |
| BattleShip.Reports | coding-articles/tobetek-article-game-of-battleship/code/test/Battleship.ts:530-544 | one event per proof, in the proofs' order, naming the reporter and the proof's `shotBy`, carrying the shot on record for that `shotBy` as its coordinate, and a hit exactly when the proof's signature is one of the reporter's committed tiles |
| BattleShip.AtMostOneSurvivor | coding-articles/tobetek-article-game-of-battleship/code/test/Battleship.ts:656-661 | when at most one player is alive, any two surviving seats are the same seat |
| BattleShip.BattleShipGame.constructor | coding-articles/tobetek-article-game-of-battleship/code/test/Battleship.ts:150-154 | a deployed game has the given players and the deployer as owner, and nobody has joined, fired or been destroyed |
| BattleShip.BattleShipGame.Deploy | coding-articles/tobetek-article-game-of-battleship/code/test/Battleship.ts:402-416 | deployment fails with the player-count error exactly when the list does not hold two addresses; otherwise the fresh game has those players and the deployer as owner |
| BattleShip.BattleShipGame.PlayersAddress | coding-articles/tobetek-article-game-of-battleship/code/test/Battleship.ts:382-393 | `playersAddress(i)` is the i-th deployment address for i < 2 and fails otherwise |
| BattleShip.BattleShipGame.JoinGame | coding-articles/tobetek-article-game-of-battleship/code/test/Battleship.ts:322-379 | refuses in order a finished game, a non-participant, a second join, a piece count other than ten and a repeated tile, leaving the state unchanged; otherwise records the caller's tiles and starts the game once everyone has joined; refused once the game has started |
| BattleShip.BattleShipGame.TakeAShot | coding-articles/tobetek-article-game-of-battleship/code/test/Battleship.ts:474-505 | refuses an off-board shot, a game not started or over, a non-participant and a second shot in the same turn; otherwise records the shot and marks only the caller as played |
| BattleShip.BattleShipGame.JudgeProofs | coding-articles/tobetek-article-game-of-battleship/code/test/Battleship.ts:530-558 | the proofs are accepted exactly when each recovers to the reporter over the shot on record for its `shotBy`; then the events are the reports of the proofs and the hit count is the number of hits among them |
| BattleShip.BattleShipGame.ReportHits | coding-articles/tobetek-article-game-of-battleship/code/test/Battleship.ts:482-558 | refuses a game not started or over, a non-participant, and a turn in which someone has not fired; otherwise succeeds exactly when every proof attests, emits one report per proof, adds the hits to the reporter's count and marks it reported |
| BattleShip.BattleShipGame.TallyFleets | coding-articles/tobetek-article-game-of-battleship/code/test/Battleship.ts:622-630 | the destroyed players are exactly those whose count reaches ten, keeping earlier ones, and the number alive is counted against that set |
| BattleShip.BattleShipGame.EndTurn | coding-articles/tobetek-article-game-of-battleship/code/test/Battleship.ts:596-661 | refuses a game not started or over, and a turn not fully reported; otherwise clears the turn's flags, destroys every fleet whose count reaches ten, and ends the game exactly when at most one player is alive |
| BattleShip.BattleShipGame.GetWinner | coding-articles/tobetek-article-game-of-battleship/code/test/Battleship.ts:664-689 | fails exactly while the game runs; afterwards the sole survivor, or the zero address when every fleet is destroyed |
| GameDriver.FlattenSigned | coding-articles/tobetek-article-game-of-battleship/code/test/Battleship.ts:145-150 | flattening the per-ship signature lists gives the signatures of the flattened fleet, tile by tile |
| GameDriver.HitIffShotOnFleet | coding-articles/tobetek-article-game-of-battleship/code/test/Battleship.ts:530-541 | for a reporter who committed the signatures of its fleet, an attested proof judged a hit means the recorded shot lies on that fleet; a proof that is the reporter's own tile signature of the recorded shot, as the proof builder makes it, is a hit exactly when the shot lies on the fleet |
| GameDriver.GenerateShipShotProof | coding-articles/tobetek-article-game-of-battleship/code/utils/game.ts:38-55 | one proof per address, in order, naming that address as `shotBy` and holding the player's signature over that address's recorded shot, so every proof attests |
| GameDriver.ReportedHitsCount | coding-articles/tobetek-article-game-of-battleship/code/test/Battleship.ts:707-713 | the hits a report on every seat's shot counts are the shots of the row that land on the reporter's committed tiles |
| GameDriver.ReportPrepared | coding-articles/tobetek-article-game-of-battleship/code/test/Battleship.ts:707-713 | the proofs built for a row of on-board shots all attest, and they count exactly the row's shots on the reporter's tiles |
| GameDriver.TurnHitsOnFleet | coding-articles/tobetek-article-game-of-battleship/code/test/Battleship.ts:700-716 | counting a row's hits by signatures equals counting the shots that lie on the signed fleet |
| GameDriver.HitsAfterOnFleet | coding-articles/tobetek-article-game-of-battleship/code/test/Battleship.ts:694-719 | the same equality summed over the first t turns |
| GameDriver.SignedDistinct | coding-articles/tobetek-article-game-of-battleship/code/test/Battleship.ts:323-331 | signing pairwise different tiles gives pairwise different signatures, so a fleet of distinct tiles can join |
| GameDriver.AddressesOf | coding-articles/tobetek-article-game-of-battleship/code/test/Battleship.ts:699 | the addresses of the signers, one per signer and in order |
| GameDriver.HitsAfterTurnsStep | coding-articles/tobetek-article-game-of-battleship/code/test/Battleship.ts:700-716 | one more turn adds exactly that turn's hits to a seat's count |
| GameDriver.DestroyedAfterMatches | coding-articles/tobetek-article-game-of-battleship/code/test/Battleship.ts:715 | counts that agree with the reference count seat by seat destroy exactly the fleets the reference count destroys |
| GameDriver.FireRow | coding-articles/tobetek-article-game-of-battleship/code/test/Battleship.ts:701-705 | from the start of a turn with on-board shots, every seat fires its column, the turn is over, and the recorded shot of each seat is its column |
| GameDriver.ReportFor | coding-articles/tobetek-article-game-of-battleship/code/test/Battleship.ts:707-713 | one seat's report succeeds, adds to that seat's count exactly the row's shots that land on its tiles, and leaves every other seat's count alone |
| GameDriver.ReportRow | coding-articles/tobetek-article-game-of-battleship/code/test/Battleship.ts:706-714 | after every seat reports, every report has been made and each seat's count has grown by the row's shots on its tiles |
| GameDriver.PlayTurn | coding-articles/tobetek-article-game-of-battleship/code/test/Battleship.ts:700-716 | one round succeeds from a turn start: counts grow by the row's hits on each fleet, flags are cleared, the destroyed set and game-over flag follow the new counts |
| GameDriver.PlayNextTurn | coding-articles/tobetek-article-game-of-battleship/code/test/Battleship.ts:700-716 | from the state t turns leave behind, while the game runs, the next round succeeds and leaves the state of t + 1 turns |
| GameDriver.PlayTurns | coding-articles/tobetek-article-game-of-battleship/code/test/Battleship.ts:694-719 | from a turn start, with on-board rows and no fleet count ending the game before the last row, every round succeeds and the game ends in the state the reference count of all rows gives |
| Scenarios.OwnerFixture | coding-articles/tobetek-article-game-of-battleship/code/test/Battleship.ts:19-35 | the owner's ships fit the board and flatten to ten distinct tiles |
| Scenarios.OtherAccountFixture | coding-articles/tobetek-article-game-of-battleship/code/test/Battleship.ts:36-56 | the other account's ships fit the board and flatten to ten distinct tiles |
| Scenarios.FleetTiles | coding-articles/tobetek-article-game-of-battleship/code/test/Battleship.ts:19-56 | the flattened fleets hold exactly the listed tile sets |
| Scenarios.PairStep | coding-articles/tobetek-article-game-of-battleship/code/test/Battleship.ts:700-716 | a two-seat row adds to a fleet's count what each of its two shots lands |
| Scenarios.CountsFrom | coding-articles/tobetek-article-game-of-battleship/code/test/Battleship.ts:700-716 | rows that land nothing before turn m and one shot from then on leave a count of the turns past m |
| Scenarios.GameOverOwnerRows | coding-articles/tobetek-article-game-of-battleship/code/test/Battleship.ts:58-99 | every row of `gameOverShots` lands one shot on the owner's fleet |
| Scenarios.GameOverOtherAccountRows | coding-articles/tobetek-article-game-of-battleship/code/test/Battleship.ts:58-99 | the rows of `gameOverShots` land nothing on the other account before the eighth and one shot from then on |
| Scenarios.DrawOwnerRows | coding-articles/tobetek-article-game-of-battleship/code/test/Battleship.ts:101-141 | every row of `gameOverDrawShots` lands one shot on the owner's fleet |
| Scenarios.DrawOtherAccountRows | coding-articles/tobetek-article-game-of-battleship/code/test/Battleship.ts:101-141 | every row of `gameOverDrawShots` lands one shot on the other account's fleet |
| Scenarios.GameOverLandings | coding-articles/tobetek-article-game-of-battleship/code/test/Battleship.ts:58-99 | after t turns of `gameOverShots` the owner has taken t hits and the other account t - 7 (none before the eighth turn) |
| Scenarios.DrawLandings | coding-articles/tobetek-article-game-of-battleship/code/test/Battleship.ts:101-141 | after t turns of `gameOverDrawShots` both players have taken t hits |
| Scenarios.SeatHits | coding-articles/tobetek-article-game-of-battleship/code/test/Battleship.ts:694-719 | a seat's count from fresh counts is its count by coordinates on its own fleet |
| Scenarios.GameOverSeatCounts | coding-articles/tobetek-article-game-of-battleship/code/test/Battleship.ts:238-282 | with the fixture fleets committed, `gameOverShots` gives the owner t hits and the other account t - 7 after t turns |
| Scenarios.DrawSeatCounts | coding-articles/tobetek-article-game-of-battleship/code/test/Battleship.ts:664-689 | with the fixture fleets committed, `gameOverDrawShots` gives both players t hits after t turns |
| Scenarios.TwoSeatsDestroyed | coding-articles/tobetek-article-game-of-battleship/code/test/Battleship.ts:622-630 | the fleets destroyed after t turns are those of the two seats whose counts reach ten |
| Scenarios.TwoPlayersAlive | coding-articles/tobetek-article-game-of-battleship/code/test/Battleship.ts:622-630 | between two players, the number alive is one per player not destroyed |
| Scenarios.GameOverNoEarlyEnd | coding-articles/tobetek-article-game-of-battleship/code/test/Battleship.ts:238-282 | no turn of `gameOverShots` before the last destroys a fleet, and every shot fits the board |
| Scenarios.DrawNoEarlyEnd | coding-articles/tobetek-article-game-of-battleship/code/test/Battleship.ts:664-689 | no turn of `gameOverDrawShots` before the last destroys a fleet, and every shot fits the board |
| Scenarios.DeployWithGameStart | coding-articles/tobetek-article-game-of-battleship/code/test/Battleship.ts:143-164 | a fresh game for the owner and the other account, owned by the owner, with each fleet's flattened signatures distinct |
| Scenarios.DeployAndJoin | coding-articles/tobetek-article-game-of-battleship/code/test/Battleship.ts:323-332 | both players join with their fixture fleets and the game stands at the start of its first turn |
| Scenarios.DeployWithTurnInProgress | coding-articles/tobetek-article-game-of-battleship/code/test/Battleship.ts:166-210 | the owner alone has fired, at (20, 2) |
| Scenarios.DeployWithTurnOver | coding-articles/tobetek-article-game-of-battleship/code/test/Battleship.ts:212-236 | both have fired, the other account at (1, 2), and nobody has reported |
| Scenarios.DeployWithGameOver | coding-articles/tobetek-article-game-of-battleship/code/test/Battleship.ts:238-282 | after `gameOverShots` the owner has ten hits and is destroyed, the other account three, and the game is over |
| Findings.AlertId | coding-articles/code/src/utils.ts:36 | an alert id is "deposit-" followed by the code's own text, "001", "002" or "003" |
| Findings.AlertIdRoundTrip | coding-articles/code/src/utils.ts:17-36 | every alert id reads back as the code it was built from, so the three ids are distinct |
| Findings.CreateFinding | coding-articles/code/src/utils.ts:25-45 | fixed name (with its double space) and protocol, the prefixed alert id, description, severity and type passed through, metadata exactly the account and amount |
| Findings.CreateFindingRoundTrip | coding-articles/code/src/utils.ts:25-45 | the parameters can be read back from the finding, so `createFinding` loses nothing |
| Findings.CreateFindingInjective | coding-articles/code/src/utils.ts:25-45 | two findings are equal exactly when their parameters are |
| DepositAgent.DepositLogs | coding-articles/code/src/agent.ts:31-34 | the kept logs are `Deposited` logs from the configured address, drawn from the transaction, and every such log is kept; a single log is kept exactly when it matches |
| DepositAgent.DepositLogsAppend | coding-articles/code/src/agent.ts:31-35 | filtering two stretches of logs in turn is filtering them together, so the kept logs keep the transaction's order and repetitions |
| DepositAgent.NoDepositLogs | coding-articles/code/src/agent.ts:31-34 | a transaction without a matching log keeps no log |
| DepositAgent.HandleTransaction | coding-articles/code/src/agent.ts:26-81 | the pushed findings are, log after log, the findings of each deposit log of the transaction |
| DepositAgent.LogFindingsShape | coding-articles/code/src/agent.ts:35-77 | one deposit raises 001 first, 002 exactly when the amount is below the minimum and 003 exactly when the sender is blacklisted, in rising order, each carrying the sender and the amount |
| DepositAgent.LogCodeCounts | coding-articles/code/src/agent.ts:38-77 | one deposit raises 001 once, 002 once if small and never otherwise, 003 once if blacklisted and never otherwise |
| DepositAgent.FindingsCountBounds | coding-articles/code/src/agent.ts:35-80 | n deposit logs raise between n and 3n findings |
| DepositAgent.FindingsCarryDeposit | coding-articles/code/src/agent.ts:40-72 | every finding carries the sender as account and the amount of one of the deposits |
| DepositAgent.FindingsPerCode | coding-articles/code/src/agent.ts:35-80 | over a transaction: one 001 per deposit, one 002 per small deposit, and one 003 per deposit if the sender is blacklisted, none otherwise |
| DepositScenarios.DifferentEventTest | coding-articles/yehia-article-fortaBot/code/src/agent.spec.ts:59-70 | a `Transfer` log from another contract raises nothing, even for a blacklisted sender |
| DepositScenarios.DifferentContractTest | coding-articles/yehia-article-fortaBot/code/src/agent.spec.ts:71-80 | a `Deposited` log from another contract raises nothing |
| DepositScenarios.ThreeFindingsTest | coding-articles/yehia-article-fortaBot/code/src/agent.spec.ts:81-91 | a blacklisted sender's 0.001 ether deposit raises exactly the three expected findings, in order |

## Left out

- Cryptography: keccak-256 and ECDSA are replaced by a deterministic stand-in. Two idealisations stand in for what ECDSA gives only with overwhelming probability. The hash never collides. A signature over one digest never recovers to its signer over another digest (`Crypto.RecoverBindsDigest`). Signatures are not unique: `Crypto.SignatureNotUnique` exhibits a second signature that recovers alike. `splitSignature` and the verifier contract's `SplitSignature` in `test/Verify.ts` are not modelled.
- GameDriver.HitIffShotOnFleet: for an arbitrary attested proof it promises only that a hit lies on the fleet. A reporter could attest an on-fleet shot with a signature other than its committed one, and the shot would be judged a miss. "Hit exactly when on the fleet" is promised for the proofs the proof builder makes.
- The contract's Solidity source is not part of this model. Where the tests show no check, none is added: a second report in the same turn is not refused; duplicate addresses in the player list are not refused; the tiles passed to `joinGame` are not checked to be signed by the caller.
- These refusals are inferred from the game's rules and not pinned by any test: `NotAParticipant` in `TakeAShot` and `ReportHits`, `CoordinateOutOfRange` in `TakeAShot`, `InvalidProof` in `ReportHits` (the test of invalid proofs checks only that an event is emitted), and `ShotsNotReported` in `EndTurn`.
- BattleShip.BattleShipGame.ReportHits: a report is accepted, and its reporter marked as having reported, whether or not its proofs cover the turn's recorded shots. A report that leaves out a shot counts no hit for it. A report that repeats a proof counts its hit again. So `HasReportedShots` means every player has reported, not that every shot was judged. The tests show no refusal of either.
- GameUtils.SignCoordinate: fails for a value outside 0..255. Packing a value that does not fit a `uint8` is left to the ethers library, whose behaviour is not part of this model; it may wrap such a value instead of throwing.
- BattleShip.BattleShipGame.EndTurn: the recorded shots are not cleared at the end of a turn; the tests never read them after `endTurn`.
- GameDriver.PlayTurns: promises that every round succeeds only when the rows fit the board and no fleet is destroyed before the last row. Otherwise it promises only that the game stays valid.
- Hardhat and ethers plumbing (`loadFixture`, `getSigners`, `connect`, deployment, `async`/`await`), `scripts/deploy.ts` and `hardhat.config.ts`: tooling and I/O. Accounts are keys 0, 1 and 2; the caller is a parameter.
- The scenario test methods state what each test expects as assertions inside the method. They promise nothing to a caller, so they have no row above.
- DepositAgent.HandleTransaction: amounts are integer wei. `formatEther` and the floating-point comparison `Number(amount) < minimum` are not modelled, and the `depositedAmount` metadata holds the wei amount rather than its decimal ether string.
- The Forta SDK: `filterLog` ABI decoding, the lower-casing of addresses, `NetworkManager` with its chain-id lookup, `getEthersProvider`, `provideInitialize` and `Finding.fromObject`. A log is given as its emitter, event and amount; the network data is a parameter.
- `network.ts` is configuration data. Its chain 80001 values appear only in the deposit scenarios.
- The subgraph handler (`swap-pairs.ts`) and the frontend's Apollo client and GraphQL query: store and network glue outside both models.
