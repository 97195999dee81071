/**
 * The contract's test suite, stated as proofs. Each fixture of the suite is
 * a method that builds the game the same way and promises the state it
 * reaches; each group of tests is a method that calls the operations the
 * tests call and asserts what they expect. The accounts are the first three
 * signers of the test network.
 */
module Scenarios {
  import opened Wrappers
  import opened Crypto
  import opened GameUtils
  import opened BattleShip
  import opened GameDriver

  const OwnerKey := Key(0)
  const OtherAccountKey := Key(1)
  const OtherAccount2Key := Key(2)

  const Owner := AddressOf(OwnerKey)
  const OtherAccount := AddressOf(OtherAccountKey)
  const OtherAccount2 := AddressOf(OtherAccount2Key)

  /** The seats of the game, in order. */
  const Signers := [OwnerKey, OtherAccountKey]

  /** `ownerShipCoords`: ships of 3, 4 and 3 tiles. */
  const OwnerShipCoords: seq<Ship> := [
    [Coordinate(1, 2), Coordinate(1, 3), Coordinate(1, 4)],
    [Coordinate(2, 2), Coordinate(2, 3), Coordinate(2, 4), Coordinate(2, 5)],
    [Coordinate(10, 2), Coordinate(10, 3), Coordinate(10, 4)]
  ]

  /** `otherAccountShipCoords`: ships of 4, 3 and 3 tiles. */
  const OtherAccountShipCoords: seq<Ship> := [
    [Coordinate(11, 2), Coordinate(11, 3), Coordinate(11, 4), Coordinate(11, 5)],
    [Coordinate(12, 3), Coordinate(12, 4), Coordinate(12, 5)],
    [Coordinate(20, 2), Coordinate(20, 3), Coordinate(20, 4)]
  ]

  /** The owner's tiles, flattened. */
  const OwnerFleet: seq<Coordinate> := [
    Coordinate(1, 2), Coordinate(1, 3), Coordinate(1, 4),
    Coordinate(2, 2), Coordinate(2, 3), Coordinate(2, 4), Coordinate(2, 5),
    Coordinate(10, 2), Coordinate(10, 3), Coordinate(10, 4)
  ]

  /** The other account's tiles, flattened. */
  const OtherAccountFleet: seq<Coordinate> := [
    Coordinate(11, 2), Coordinate(11, 3), Coordinate(11, 4), Coordinate(11, 5),
    Coordinate(12, 3), Coordinate(12, 4), Coordinate(12, 5),
    Coordinate(20, 2), Coordinate(20, 3), Coordinate(20, 4)
  ]

  /**
   * `gameOverShots`: the owner misses seven times and then hits the other
   * account's last ship; the other account hits every owner tile in turn.
   */
  const GameOverShots: seq<seq<Coordinate>> := [
    [Coordinate(0, 2), Coordinate(1, 2)],
    [Coordinate(0, 3), Coordinate(1, 3)],
    [Coordinate(0, 4), Coordinate(1, 4)],
    [Coordinate(0, 2), Coordinate(2, 2)],
    [Coordinate(0, 3), Coordinate(2, 3)],
    [Coordinate(0, 4), Coordinate(2, 4)],
    [Coordinate(0, 5), Coordinate(2, 5)],
    [Coordinate(20, 2), Coordinate(10, 2)],
    [Coordinate(20, 3), Coordinate(10, 3)],
    [Coordinate(20, 4), Coordinate(10, 4)]
  ]

  /** `gameOverDrawShots`: both players hit every tile of the other, turn for turn. */
  const GameOverDrawShots: seq<seq<Coordinate>> := [
    [Coordinate(11, 2), Coordinate(1, 2)],
    [Coordinate(11, 3), Coordinate(1, 3)],
    [Coordinate(11, 4), Coordinate(1, 4)],
    [Coordinate(11, 5), Coordinate(2, 2)],
    [Coordinate(12, 3), Coordinate(2, 3)],
    [Coordinate(12, 4), Coordinate(2, 4)],
    [Coordinate(12, 5), Coordinate(2, 5)],
    [Coordinate(20, 2), Coordinate(10, 2)],
    [Coordinate(20, 3), Coordinate(10, 3)],
    [Coordinate(20, 4), Coordinate(10, 4)]
  ]

  /** The owner's fixture fits the board and flattens to ten distinct tiles. */
  lemma OwnerFixture()
    ensures FleetOnBoard(OwnerShipCoords) && Flatten(OwnerShipCoords) == OwnerFleet
    ensures |OwnerFleet| == SHIP_PIECES
    ensures forall i, j :: 0 <= i < j < |OwnerFleet| ==> OwnerFleet[i] != OwnerFleet[j]
  {
  }

  /** The other account's fixture fits the board and flattens to ten distinct tiles. */
  lemma OtherAccountFixture()
    ensures FleetOnBoard(OtherAccountShipCoords) && Flatten(OtherAccountShipCoords) == OtherAccountFleet
    ensures |OtherAccountFleet| == SHIP_PIECES
    ensures forall i, j :: 0 <= i < j < |OtherAccountFleet| ==> OtherAccountFleet[i] != OtherAccountFleet[j]
  {
  }

  /** A row of two shots adds what each of its shots lands. */
  lemma PairStep(fleet: set<Coordinate>, rows: seq<seq<Coordinate>>, t: nat)
    requires t < |rows| && |rows[t]| == 2
    ensures FleetHitsAfter(fleet, rows, 2, t + 1)
            == FleetHitsAfter(fleet, rows, 2, t) + Lands(fleet, rows[t][0]) + Lands(fleet, rows[t][1])
  {
    var row := rows[t];
    assert Columns(row, 2) == row;
    assert row[..1][..0] == [];
    assert ShotsOnFleet(fleet, row[..1]) == Lands(fleet, row[0]);
  }

  /**
   * When the rows before `m` land nothing on `fleet` and every later row
   * lands one shot, the count after `t` turns is the number of turns past `m`.
   */
  lemma {:induction false} CountsFrom(fleet: set<Coordinate>, rows: seq<seq<Coordinate>>, m: nat, t: nat)
    requires t <= |rows|
    requires forall k :: 0 <= k < t ==>
      |rows[k]| == 2 && Lands(fleet, rows[k][0]) + Lands(fleet, rows[k][1]) == (if k < m then 0 else 1)
    ensures FleetHitsAfter(fleet, rows, 2, t) == if t <= m then 0 else t - m
  {
    if t > 0 {
      CountsFrom(fleet, rows, m, t - 1);
      PairStep(fleet, rows, t - 1);
    }
  }

  /** The owner's tiles as a set. */
  const OwnerTiles: set<Coordinate> := {
    Coordinate(1, 2), Coordinate(1, 3), Coordinate(1, 4),
    Coordinate(2, 2), Coordinate(2, 3), Coordinate(2, 4), Coordinate(2, 5),
    Coordinate(10, 2), Coordinate(10, 3), Coordinate(10, 4)
  }

  /** The other account's tiles as a set. */
  const OtherAccountTiles: set<Coordinate> := {
    Coordinate(11, 2), Coordinate(11, 3), Coordinate(11, 4), Coordinate(11, 5),
    Coordinate(12, 3), Coordinate(12, 4), Coordinate(12, 5),
    Coordinate(20, 2), Coordinate(20, 3), Coordinate(20, 4)
  }

  lemma FleetTiles()
    ensures (set c | c in OwnerFleet) == OwnerTiles
    ensures (set c | c in OtherAccountFleet) == OtherAccountTiles
  {
  }

  /** Every row of `gameOverShots` lands one shot on the owner. */
  lemma GameOverOwnerRows(fleet: set<Coordinate>)
    requires fleet == OwnerTiles
    ensures forall k :: 0 <= k < |GameOverShots| ==>
      |GameOverShots[k]| == 2 && Lands(fleet, GameOverShots[k][0]) + Lands(fleet, GameOverShots[k][1]) == 1
  {
    forall k | 0 <= k < |GameOverShots|
      ensures |GameOverShots[k]| == 2 && Lands(fleet, GameOverShots[k][0]) + Lands(fleet, GameOverShots[k][1]) == 1
    {
      if k == 0 {} else if k == 1 {} else if k == 2 {} else if k == 3 {} else if k == 4 {}
      else if k == 5 {} else if k == 6 {} else if k == 7 {} else if k == 8 {} else {}
    }
  }

  /** The rows of `gameOverShots` land on the other account from the eighth on. */
  lemma GameOverOtherAccountRows(fleet: set<Coordinate>)
    requires fleet == OtherAccountTiles
    ensures forall k :: 0 <= k < |GameOverShots| ==>
      |GameOverShots[k]| == 2 && Lands(fleet, GameOverShots[k][0]) + Lands(fleet, GameOverShots[k][1]) == (if k < 7 then 0 else 1)
  {
    forall k | 0 <= k < |GameOverShots|
      ensures |GameOverShots[k]| == 2 && Lands(fleet, GameOverShots[k][0]) + Lands(fleet, GameOverShots[k][1]) == (if k < 7 then 0 else 1)
    {
      if k == 0 {} else if k == 1 {} else if k == 2 {} else if k == 3 {} else if k == 4 {}
      else if k == 5 {} else if k == 6 {} else if k == 7 {} else if k == 8 {} else {}
    }
  }

  /** Every row of `gameOverDrawShots` lands one shot on the owner. */
  lemma DrawOwnerRows(fleet: set<Coordinate>)
    requires fleet == OwnerTiles
    ensures forall k :: 0 <= k < |GameOverDrawShots| ==>
      |GameOverDrawShots[k]| == 2 && Lands(fleet, GameOverDrawShots[k][0]) + Lands(fleet, GameOverDrawShots[k][1]) == 1
  {
    forall k | 0 <= k < |GameOverDrawShots|
      ensures |GameOverDrawShots[k]| == 2 && Lands(fleet, GameOverDrawShots[k][0]) + Lands(fleet, GameOverDrawShots[k][1]) == 1
    {
      if k == 0 {} else if k == 1 {} else if k == 2 {} else if k == 3 {} else if k == 4 {}
      else if k == 5 {} else if k == 6 {} else if k == 7 {} else if k == 8 {} else {}
    }
  }

  /** Every row of `gameOverDrawShots` lands one shot on the other account. */
  lemma DrawOtherAccountRows(fleet: set<Coordinate>)
    requires fleet == OtherAccountTiles
    ensures forall k :: 0 <= k < |GameOverDrawShots| ==>
      |GameOverDrawShots[k]| == 2 && Lands(fleet, GameOverDrawShots[k][0]) + Lands(fleet, GameOverDrawShots[k][1]) == 1
  {
    forall k | 0 <= k < |GameOverDrawShots|
      ensures |GameOverDrawShots[k]| == 2 && Lands(fleet, GameOverDrawShots[k][0]) + Lands(fleet, GameOverDrawShots[k][1]) == 1
    {
      if k == 0 {} else if k == 1 {} else if k == 2 {} else if k == 3 {} else if k == 4 {}
      else if k == 5 {} else if k == 6 {} else if k == 7 {} else if k == 8 {} else {}
    }
  }

  /** In `gameOverShots` the owner is hit every turn and the other account from the eighth turn on. */
  lemma GameOverLandings(t: nat)
    requires t <= |GameOverShots|
    ensures FleetHitsAfter(OwnerTiles, GameOverShots, 2, t) == t
    ensures FleetHitsAfter(OtherAccountTiles, GameOverShots, 2, t) == if t <= 7 then 0 else t - 7
  {
    GameOverOwnerRows(OwnerTiles);
    GameOverOtherAccountRows(OtherAccountTiles);
    CountsFrom(OwnerTiles, GameOverShots, 0, t);
    CountsFrom(OtherAccountTiles, GameOverShots, 7, t);
  }

  /** In `gameOverDrawShots` both players are hit every turn. */
  lemma DrawLandings(t: nat)
    requires t <= |GameOverDrawShots|
    ensures FleetHitsAfter(OwnerTiles, GameOverDrawShots, 2, t) == t
    ensures FleetHitsAfter(OtherAccountTiles, GameOverDrawShots, 2, t) == t
  {
    DrawOwnerRows(OwnerTiles);
    DrawOtherAccountRows(OtherAccountTiles);
    CountsFrom(OwnerTiles, GameOverDrawShots, 0, t);
    CountsFrom(OtherAccountTiles, GameOverDrawShots, 0, t);
  }

  /** A seat's count after `t` turns, from a fresh count, is its count by coordinates. */
  lemma SeatHits(tiles0: map<Address, set<Signature>>, signer: Key, fleet: seq<Coordinate>, sigs: seq<Signature>,
                 rows: seq<seq<Coordinate>>, t: nat)
    requires SignedShip(signer, fleet, sigs) && t <= |rows|
    requires AddressOf(signer) in tiles0 && tiles0[AddressOf(signer)] == (set s | s in sigs)
    ensures HitsAfterTurns(map[], tiles0, signer, rows, 2, t) == FleetHitsAfter((set c | c in fleet), rows, 2, t)
  {
    HitsAfterOnFleet(signer, fleet, sigs, rows, 2, t);
  }

  /**
   * `deployBattleShipGameWithGameStart`: both fleets signed and flattened,
   * and the game deployed by the owner for the owner and the other account.
   */
  method DeployWithGameStart() returns (game: BattleShipGame, ownerShips: seq<Signature>,
                                        otherAccountShips: seq<Signature>)
    ensures fresh(game) && game.Valid() && game.Fresh()
    ensures game.players == [Owner, OtherAccount] && game.owner == Owner
    ensures SignedShip(OwnerKey, OwnerFleet, ownerShips) && Distinct(ownerShips)
    ensures SignedShip(OtherAccountKey, OtherAccountFleet, otherAccountShips) && Distinct(otherAccountShips)
  {
    OwnerFixture();
    OtherAccountFixture();
    var signed := SignShipCoordinates(OwnerShipCoords, OwnerKey);
    FlattenSigned(OwnerKey, OwnerShipCoords, signed.value);
    ownerShips := Flatten(signed.value);
    SignedDistinct(OwnerKey, OwnerFleet, ownerShips);
    signed := SignShipCoordinates(OtherAccountShipCoords, OtherAccountKey);
    FlattenSigned(OtherAccountKey, OtherAccountShipCoords, signed.value);
    otherAccountShips := Flatten(signed.value);
    SignedDistinct(OtherAccountKey, OtherAccountFleet, otherAccountShips);
    var deployed := BattleShipGame.Deploy(Owner, [Owner, OtherAccount]);
    game := deployed.value;
  }

  /** The "Game Start" tests: a deployed game that nobody has joined. */
  method GameStartTests()
  {
    var game, ownerShips, otherAccountShips := DeployWithGameStart();
    assert game.owner == Owner;
    var r := game.TakeAShot(Owner, Coordinate(20, 20));
    assert r == Fail(GameNotStarted);
    var signed := SignCoordinate(OwnerShipCoords[0][0], OwnerKey);
    var events;
    r, events := game.ReportHits(Owner, [ShipShotProof(signed.value.flatSig, OtherAccount)]);
    assert r == Fail(GameNotStarted);
    r := game.EndTurn();
    assert r.Fail?;
    assert game.PlayersAddress(0) == Success(Owner) && game.PlayersAddress(1) == Success(OtherAccount);
    assert game.PlayersAddress(2).Failure?;
    assert !game.DestroyedPlayers(Owner) && !game.DestroyedPlayers(OtherAccount);
    var threePlayers := BattleShipGame.Deploy(Owner, [Owner, OtherAccount, OtherAccount2]);
    assert threePlayers.Failure? && threePlayers.error == InvalidPlayerCount;
    assert !game.IsGameStarted() && !game.IsGameOver();
    assert Owner in game.PlayerSet();
    assert !game.IsTurnOver() && !game.HasReportedShots();
    var winner := game.GetWinner();
    assert winner == Failure(GameNotOver);
  }

  /** "Should allow players can call joinGame", and only once. */
  method JoinGameOnceTest()
  {
    var game, ownerShips, otherAccountShips := DeployWithGameStart();
    var r := game.JoinGame(Owner, ownerShips);
    assert r.Pass?;
    r := game.JoinGame(Owner, ownerShips);
    assert r == Fail(AlreadyJoined);
  }

  /** The "Join Game" tests of malformed calls. */
  method JoinGameRefusalTests()
  {
    var game, ownerShips, otherAccountShips := DeployWithGameStart();
    var r := game.JoinGame(Owner, ownerShips[..2]);
    assert r == Fail(WrongPieceCount);
    r := game.JoinGame(OtherAccount2, ownerShips);
    assert r == Fail(NotAParticipant);
    var duplicated := ownerShips[0 := ownerShips[1]];
    assert duplicated[0] == duplicated[1];
    r := game.JoinGame(Owner, duplicated);
    assert r == Fail(TileTaken);
  }

  /** Both players join with their fixture fleets: the game starts. */
  method DeployAndJoin() returns (game: BattleShipGame, ownerShips: seq<Signature>,
                                  otherAccountShips: seq<Signature>)
    ensures fresh(game) && AtTurnStart(game, Signers)
    ensures game.players == [Owner, OtherAccount] && game.owner == Owner
    ensures game.hits == map[] && game.shots == map[] && game.destroyed == {}
    ensures game.shipTiles == map[Owner := (set s | s in ownerShips), OtherAccount := (set s | s in otherAccountShips)]
    ensures SignedShip(OwnerKey, OwnerFleet, ownerShips)
    ensures SignedShip(OtherAccountKey, OtherAccountFleet, otherAccountShips)
  {
    game, ownerShips, otherAccountShips := DeployWithGameStart();
    var r := game.JoinGame(Owner, ownerShips);
    assert r.Pass?;
    r := game.JoinGame(OtherAccount, otherAccountShips);
    assert r.Pass?;
    assert game.PlayerSet() <= game.joined;
  }

  /** `deployBattleShipGameWithTurnInProgress`: the owner has fired at (20, 2). */
  method DeployWithTurnInProgress() returns (game: BattleShipGame, ownerShips: seq<Signature>,
                                             otherAccountShips: seq<Signature>)
    ensures fresh(game) && game.Valid() && game.started && !game.gameOver
    ensures game.players == [Owner, OtherAccount]
    ensures game.played == {Owner} && game.reported == {} && game.shots == map[Owner := Coordinate(20, 2)]
    ensures game.hits == map[] && game.destroyed == {}
    ensures game.shipTiles == map[Owner := (set s | s in ownerShips), OtherAccount := (set s | s in otherAccountShips)]
    ensures SignedShip(OwnerKey, OwnerFleet, ownerShips)
    ensures SignedShip(OtherAccountKey, OtherAccountFleet, otherAccountShips)
  {
    game, ownerShips, otherAccountShips := DeployAndJoin();
    var r := game.TakeAShot(Owner, Coordinate(20, 2));
    assert r.Pass?;
  }

  /** The "Turn Ongoing" tests: one player has fired, the other has not. */
  method TurnOngoingTests()
  {
    var game, ownerShips, otherAccountShips := DeployWithTurnInProgress();
    var r := game.JoinGame(Owner, ownerShips);
    assert r.Fail?;
    assert OtherAccount in game.PlayerSet();
    assert !game.IsTurnOver() && !game.HasReportedShots();
    assert game.PlayerHasPlayed(Owner) && !game.PlayerHasPlayed(OtherAccount);
    var shotReports := GenerateShipShotProof(OwnerKey, [Owner, OtherAccount], game);
    var events;
    r, events := game.ReportHits(Owner, shotReports);
    assert r == Fail(TurnNotOver);
    r := game.TakeAShot(Owner, Coordinate(20, 2));
    assert r == Fail(AlreadyPlayed);
    r := game.TakeAShot(OtherAccount, Coordinate(1, 2));
    assert r.Pass?;
  }

  /** `deployBattleShipGameWithTurnOver`: the other account has answered at (1, 2). */
  method DeployWithTurnOver() returns (game: BattleShipGame, ownerShips: seq<Signature>,
                                       otherAccountShips: seq<Signature>)
    ensures fresh(game) && game.Valid() && game.started && !game.gameOver
    ensures game.players == [Owner, OtherAccount]
    ensures game.played == {Owner, OtherAccount} && game.reported == {}
    ensures game.shots == map[Owner := Coordinate(20, 2), OtherAccount := Coordinate(1, 2)]
    ensures game.hits == map[] && game.destroyed == {}
    ensures game.shipTiles == map[Owner := (set s | s in ownerShips), OtherAccount := (set s | s in otherAccountShips)]
    ensures SignedShip(OwnerKey, OwnerFleet, ownerShips)
    ensures SignedShip(OtherAccountKey, OtherAccountFleet, otherAccountShips)
  {
    game, ownerShips, otherAccountShips := DeployWithTurnInProgress();
    var r := game.TakeAShot(OtherAccount, Coordinate(1, 2));
    assert r.Pass?;
  }

  /** The "Turn Over" tests of the game state: every player has fired. */
  method TurnOverTests()
  {
    var game, ownerShips, otherAccountShips := DeployWithTurnOver();
    var r := game.JoinGame(Owner, ownerShips);
    assert r.Fail?;
    assert game.IsTurnOver();
    assert game.PlayerHasPlayed(Owner) && game.PlayerHasPlayed(OtherAccount);
  }

  /**
   * "Should allow player report hits": the owner's report on (20, 2), its
   * own shot, is a miss, and on (1, 2), the other account's shot, a hit.
   */
  method TurnOverReportTest()
  {
    var game, ownerShips, otherAccountShips := DeployWithTurnOver();
    var shots := game.shots;
    var shotReports := GenerateShipShotProof(OwnerKey, [Owner, OtherAccount], game);
    assert ShotAt(shots, Owner) == Coordinate(20, 2) && Coordinate(20, 2) !in OwnerFleet;
    assert ShotAt(shots, OtherAccount) == Coordinate(1, 2) && Coordinate(1, 2) in OwnerFleet;
    HitIffShotOnFleet(OwnerKey, OwnerFleet, ownerShips, shots, shotReports[0]);
    HitIffShotOnFleet(OwnerKey, OwnerFleet, ownerShips, shots, shotReports[1]);
    var r, events := game.ReportHits(Owner, shotReports);
    assert r.Pass?;
    assert events == [ShotReport(Coordinate(20, 2), Owner, Owner, false),
                      ShotReport(Coordinate(1, 2), Owner, OtherAccount, true)];
  }

  /** Seat by seat, the counts `gameOverShots` builds up from fresh counts. */
  lemma GameOverSeatCounts(tiles0: map<Address, set<Signature>>, ownerShips: seq<Signature>,
                           otherAccountShips: seq<Signature>, t: nat)
    requires tiles0 == map[Owner := (set s | s in ownerShips), OtherAccount := (set s | s in otherAccountShips)]
    requires SignedShip(OwnerKey, OwnerFleet, ownerShips)
    requires SignedShip(OtherAccountKey, OtherAccountFleet, otherAccountShips)
    requires t <= |GameOverShots|
    ensures HitsAfterTurns(map[], tiles0, OwnerKey, GameOverShots, 2, t) == t
    ensures HitsAfterTurns(map[], tiles0, OtherAccountKey, GameOverShots, 2, t) == if t <= 7 then 0 else t - 7
  {
    FleetTiles();
    SeatHits(tiles0, OwnerKey, OwnerFleet, ownerShips, GameOverShots, t);
    SeatHits(tiles0, OtherAccountKey, OtherAccountFleet, otherAccountShips, GameOverShots, t);
    GameOverLandings(t);
  }

  /** Seat by seat, the counts `gameOverDrawShots` builds up from fresh counts. */
  lemma DrawSeatCounts(tiles0: map<Address, set<Signature>>, ownerShips: seq<Signature>,
                       otherAccountShips: seq<Signature>, t: nat)
    requires tiles0 == map[Owner := (set s | s in ownerShips), OtherAccount := (set s | s in otherAccountShips)]
    requires SignedShip(OwnerKey, OwnerFleet, ownerShips)
    requires SignedShip(OtherAccountKey, OtherAccountFleet, otherAccountShips)
    requires t <= |GameOverDrawShots|
    ensures HitsAfterTurns(map[], tiles0, OwnerKey, GameOverDrawShots, 2, t) == t
    ensures HitsAfterTurns(map[], tiles0, OtherAccountKey, GameOverDrawShots, 2, t) == t
  {
    FleetTiles();
    SeatHits(tiles0, OwnerKey, OwnerFleet, ownerShips, GameOverDrawShots, t);
    SeatHits(tiles0, OtherAccountKey, OtherAccountFleet, otherAccountShips, GameOverDrawShots, t);
    DrawLandings(t);
  }

  /** The fleets destroyed after `t` turns are those whose two counts reach `SHIP_PIECES`. */
  lemma TwoSeatsDestroyed(tiles0: map<Address, set<Signature>>, rows: seq<seq<Coordinate>>, t: nat)
    requires t <= |rows|
    ensures DestroyedAfter(map[], tiles0, Signers, rows, t)
            == (if HitsAfterTurns(map[], tiles0, OwnerKey, rows, 2, t) >= SHIP_PIECES then {Owner} else {})
               + (if HitsAfterTurns(map[], tiles0, OtherAccountKey, rows, 2, t) >= SHIP_PIECES
                  then {OtherAccount} else {})
  {
    assert Signers[0] == OwnerKey && Signers[1] == OtherAccountKey;
  }

  /** The count of fleets standing between two players. */
  lemma TwoPlayersAlive(a: Address, b: Address, destroyed: set<Address>)
    ensures CountAlive([a, b], destroyed) == (if a in destroyed then 0 else 1) + (if b in destroyed then 0 else 1)
  {
    assert [a, b][..1] == [a];
    assert [a][..0] == [];
  }

  /** Until the last row of `gameOverShots` neither fleet is destroyed, and every shot fits the board. */
  lemma GameOverNoEarlyEnd(tiles0: map<Address, set<Signature>>, ownerShips: seq<Signature>,
                           otherAccountShips: seq<Signature>)
    requires tiles0 == map[Owner := (set s | s in ownerShips), OtherAccount := (set s | s in otherAccountShips)]
    requires SignedShip(OwnerKey, OwnerFleet, ownerShips)
    requires SignedShip(OtherAccountKey, OtherAccountFleet, otherAccountShips)
    ensures NoEarlyEnd([Owner, OtherAccount], map[], tiles0, Signers, GameOverShots)
    ensures RowsOnBoard(GameOverShots, 2)
  {
    forall t | 0 < t < |GameOverShots|
      ensures CountAlive([Owner, OtherAccount], DestroyedAfter(map[], tiles0, Signers, GameOverShots, t)) >= 2
    {
      GameOverSeatCounts(tiles0, ownerShips, otherAccountShips, t);
      TwoSeatsDestroyed(tiles0, GameOverShots, t);
      CountAliveNoneDestroyed([Owner, OtherAccount]);
    }
    GameOverOwnerRows(OwnerTiles);
  }

  /**
   * `deployBattleShipGameWithGameOver`: after the ten turns of
   * `gameOverShots` the owner has taken all ten hits and the other account
   * three; only the owner's fleet is destroyed and the game is over.
   */
  method DeployWithGameOver() returns (game: BattleShipGame, ownerShips: seq<Signature>)
    ensures fresh(game) && game.Valid()
    ensures game.players == [Owner, OtherAccount] && game.owner == Owner
    ensures game.started && game.gameOver && game.played == {} && game.reported == {}
    ensures game.HitCount(Owner) == SHIP_PIECES && game.HitCount(OtherAccount) == 3
    ensures game.destroyed == {Owner}
  {
    var otherAccountShips;
    game, ownerShips, otherAccountShips := DeployAndJoin();
    ghost var tiles0 := game.shipTiles;
    GameOverNoEarlyEnd(tiles0, ownerShips, otherAccountShips);
    var r := PlayTurns(GameOverShots, Signers, game);
    GameOverSeatCounts(tiles0, ownerShips, otherAccountShips, |GameOverShots|);
    TwoSeatsDestroyed(tiles0, GameOverShots, |GameOverShots|);
    TwoPlayersAlive(Owner, OtherAccount, game.destroyed);
  }

  /** The "Game Over" tests: every call is refused and the survivor wins. */
  method GameOverTests()
  {
    var game, ownerShips := DeployWithGameOver();
    assert game.owner == Owner;
    var r := game.TakeAShot(Owner, Coordinate(20, 20));
    assert r == Fail(GameIsOver);
    var signed := SignCoordinate(OwnerShipCoords[0][0], OwnerKey);
    var events;
    r, events := game.ReportHits(Owner, [ShipShotProof(signed.value.flatSig, OtherAccount)]);
    assert r == Fail(GameIsOver);
    r := game.EndTurn();
    assert r.Fail?;
    r := game.JoinGame(Owner, ownerShips);
    assert r == Fail(GameIsOver);
  }

  /** The "Game Over" tests of the game state. */
  method GameOverStateTests()
  {
    var game, ownerShips := DeployWithGameOver();
    assert game.DestroyedPlayers(Owner) && !game.DestroyedPlayers(OtherAccount);
    assert game.IsGameStarted() && game.IsGameOver();
    assert Owner in game.PlayerSet();
    assert !game.IsTurnOver() && !game.HasReportedShots();
    assert game.players[1] !in game.destroyed;
    var winner := game.GetWinner();
    assert winner == Success(OtherAccount);
  }

  /** Until the last row of `gameOverDrawShots` neither fleet is destroyed, and every shot fits the board. */
  lemma DrawNoEarlyEnd(tiles0: map<Address, set<Signature>>, ownerShips: seq<Signature>,
                       otherAccountShips: seq<Signature>)
    requires tiles0 == map[Owner := (set s | s in ownerShips), OtherAccount := (set s | s in otherAccountShips)]
    requires SignedShip(OwnerKey, OwnerFleet, ownerShips)
    requires SignedShip(OtherAccountKey, OtherAccountFleet, otherAccountShips)
    ensures NoEarlyEnd([Owner, OtherAccount], map[], tiles0, Signers, GameOverDrawShots)
    ensures RowsOnBoard(GameOverDrawShots, 2)
  {
    forall t | 0 < t < |GameOverDrawShots|
      ensures CountAlive([Owner, OtherAccount], DestroyedAfter(map[], tiles0, Signers, GameOverDrawShots, t)) >= 2
    {
      DrawSeatCounts(tiles0, ownerShips, otherAccountShips, t);
      TwoSeatsDestroyed(tiles0, GameOverDrawShots, t);
      CountAliveNoneDestroyed([Owner, OtherAccount]);
    }
    DrawOwnerRows(OwnerTiles);
  }

  /**
   * "Should handle draws properly": when both fleets go down in the same
   * turn, the game is over with no survivor and the winner is the zero address.
   */
  method DrawTest()
  {
    var game, ownerShips, otherAccountShips := DeployAndJoin();
    ghost var tiles0 := game.shipTiles;
    DrawNoEarlyEnd(tiles0, ownerShips, otherAccountShips);
    var r := PlayTurns(GameOverDrawShots, Signers, game);
    DrawSeatCounts(tiles0, ownerShips, otherAccountShips, |GameOverDrawShots|);
    TwoSeatsDestroyed(tiles0, GameOverDrawShots, |GameOverDrawShots|);
    TwoPlayersAlive(Owner, OtherAccount, game.destroyed);
    assert game.destroyed == {Owner, OtherAccount} && game.gameOver;
    var winner := game.GetWinner();
    assert winner == Success(ZeroAddress);
  }
}
