/**
 * The BattleShipGame contract as its test suite pins it down: two fixed
 * players commit signed ship tiles, then play turns in which each fires one
 * shot, each attests by signature whether the recorded shots landed on its own
 * tiles, and the turn is closed, marking fleets that have taken every hit as
 * destroyed. The caller of each transaction (`msg.sender`) is a parameter;
 * a revert is a `Fail` outcome that leaves the state untouched.
 */
module BattleShip {
  import opened Wrappers
  import opened Crypto
  import opened GameUtils

  /** The number of players the contract is built for. */
  const PLAYER_COUNT: nat := 2

  /** The number of ship tiles each player commits (ships of 3, 4 and 3 tiles). */
  const SHIP_PIECES: nat := 10

  /** Why a call reverts; the revert reason string is given where the tests show it. */
  datatype GameError =
    | InvalidPlayerCount    // "_playersAddress does not match the number of expected players"
    | IndexOutOfRange       // `playersAddress(i)` beyond the player list
    | GameNotStarted        // "Game hasn't started"
    | GameIsOver            // "Game is over"
    | NotAParticipant       // "Address is not a part of this game"
    | AlreadyJoined         // "Player has already placed ships"
    | WrongPieceCount       // "Number of ship pieces does not match the expected value"
    | TileTaken             // "User has already placed a ship on this tile."
    | CoordinateOutOfRange  // a shot that does not fit the `uint8` coordinate struct
    | AlreadyPlayed         // "Player has made a move for this turn"
    | TurnNotOver           // "All players have not played for this turn."
    | InvalidProof          // a proof that does not recover to the reporter
    | ShotsNotReported      // closing a turn before every player has reported
    | GameNotOver           // "The game isn't over yet"

  /** The `ShotReport` event: the shot, who judged it, who fired it, and whether it hit. */
  datatype ShotReport = ShotReport(shotCoord: Coordinate, reporter: Address, shotBy: Address, isHit: bool)

  /** No signature occurs twice in the list. */
  predicate Distinct(sigs: seq<Signature>)
  {
    forall i, j :: 0 <= i < j < |sigs| ==> sigs[i] != sigs[j]
  }

  /** A list without repeats has as many elements as the set of its elements. */
  lemma {:induction false} DistinctCardinality(sigs: seq<Signature>)
    requires Distinct(sigs)
    ensures |set s | s in sigs| == |sigs|
  {
    if sigs != [] {
      var last := sigs[|sigs| - 1];
      var front := sigs[..|sigs| - 1];
      DistinctCardinality(front);
      assert (set s | s in sigs) == (set s | s in front) + {last};
      assert last !in (set s | s in front);
    }
  }

  /**
   * The loop of `joinGame`: mark each committed tile, refusing a tile that
   * is already marked. On success the marked tiles are exactly the
   * signatures given, and there are as many as were given.
   */
  method PlaceTiles(ships: seq<Signature>) returns (placed: set<Signature>, distinct: bool)
    ensures distinct <==> Distinct(ships)
    ensures distinct ==> placed == (set s | s in ships) && |placed| == |ships|
  {
    placed := {};
    for i := 0 to |ships|
      invariant placed == set k | 0 <= k < i :: ships[k]
      invariant forall a, b :: 0 <= a < b < i ==> ships[a] != ships[b]
    {
      if ships[i] in placed {
        return placed, false;
      }
      placed := placed + {ships[i]};
    }
    assert placed == set s | s in ships;
    DistinctCardinality(ships);
    distinct := true;
  }

  /** The shot on record for `a`; a `mapping` reads as (0, 0) when nothing is stored. */
  function ShotAt(shots: map<Address, Coordinate>, a: Address): Coordinate
  {
    if a in shots then shots[a] else Coordinate(0, 0)
  }

  /** The hits counted against `a`; zero when nothing is stored. */
  function HitsOf(hits: map<Address, nat>, a: Address): nat
  {
    if a in hits then hits[a] else 0
  }

  /** `proof` is `reporter`'s signature over the shot on record for `proof.shotBy`. */
  predicate Attests(reporter: Address, shots: map<Address, Coordinate>, proof: ShipShotProof)
  {
    var shot := ShotAt(shots, proof.shotBy);
    IsUint8Coordinate(shot) && Recover(CoordinateHash(shot), proof.signature) == reporter
  }

  /** The event a verified proof emits: a hit when the signature is one the reporter committed. */
  function ProofReport(reporter: Address, tiles: set<Signature>, shots: map<Address, Coordinate>,
                       proof: ShipShotProof): ShotReport
  {
    ShotReport(ShotAt(shots, proof.shotBy), reporter, proof.shotBy, proof.signature in tiles)
  }

  /** The events `reportHits` emits, one per proof and in the proofs' order. */
  function Reports(reporter: Address, tiles: set<Signature>, shots: map<Address, Coordinate>,
                   proofs: seq<ShipShotProof>): (events: seq<ShotReport>)
    ensures |events| == |proofs|
    ensures forall i :: 0 <= i < |proofs| ==>
      events[i].reporter == reporter && events[i].shotBy == proofs[i].shotBy
    ensures forall i :: 0 <= i < |proofs| ==>
      events[i].shotCoord == ShotAt(shots, proofs[i].shotBy) && (events[i].isHit <==> proofs[i].signature in tiles)
  {
    seq(|proofs|, i requires 0 <= i < |proofs| => ProofReport(reporter, tiles, shots, proofs[i]))
  }

  /** The number of reports that are hits. */
  function CountHits(events: seq<ShotReport>): (n: nat)
    ensures n <= |events|
  {
    if events == [] then 0
    else CountHits(events[..|events| - 1]) + (if events[|events| - 1].isHit then 1 else 0)
  }

  /** The number of entries of `players` that are not destroyed. */
  function CountAlive(players: seq<Address>, destroyed: set<Address>): (n: nat)
    ensures n <= |players|
  {
    if players == [] then 0
    else CountAlive(players[..|players| - 1], destroyed)
         + (if players[|players| - 1] in destroyed then 0 else 1)
  }

  /** With at most one entry alive, two surviving entries are the same entry. */
  lemma {:induction false} AtMostOneSurvivor(players: seq<Address>, destroyed: set<Address>, i: nat, j: nat)
    requires CountAlive(players, destroyed) <= 1
    requires i < |players| && j < |players|
    requires players[i] !in destroyed && players[j] !in destroyed
    ensures i == j
  {
    var n := |players| - 1;
    if i != n && j != n {
      AtMostOneSurvivor(players[..n], destroyed, i, j);
    } else if i != j {
      var k := if i == n then j else i;
      CountAliveWitness(players[..n], destroyed, k);
    }
  }

  /** A surviving entry makes the count positive. */
  lemma {:induction false} CountAliveWitness(players: seq<Address>, destroyed: set<Address>, k: nat)
    requires k < |players| && players[k] !in destroyed
    ensures CountAlive(players, destroyed) >= 1
  {
    var n := |players| - 1;
    if k != n {
      CountAliveWitness(players[..n], destroyed, k);
    }
  }

  /** When nobody is destroyed every entry counts. */
  lemma {:induction false} CountAliveNoneDestroyed(players: seq<Address>)
    ensures CountAlive(players, {}) == |players|
  {
    if players != [] {
      CountAliveNoneDestroyed(players[..|players| - 1]);
    }
  }

  class BattleShipGame {
    /** The participants, fixed at deployment. */
    const players: seq<Address>
    /** The deploying account, read back by `owner()`. */
    const owner: Address
    /** Who has placed ships. */
    var joined: set<Address>
    /** Each joined player's committed tile signatures. */
    var shipTiles: map<Address, set<Signature>>
    /** The shot each player fired most recently. */
    var shots: map<Address, Coordinate>
    /** Who has fired this turn. */
    var played: set<Address>
    /** Who has reported on this turn's shots. */
    var reported: set<Address>
    /** The hits each player has confirmed against its own fleet. */
    var hits: map<Address, nat>
    /** Whose fleet is destroyed. */
    var destroyed: set<Address>
    var started: bool
    var gameOver: bool

    function PlayerSet(): set<Address>
    {
      set p | p in players
    }

    ghost predicate Valid()
      reads this
    {
      && |players| == PLAYER_COUNT
      && joined <= PlayerSet()
      && shipTiles.Keys == joined
      && (forall p :: p in shipTiles ==> |shipTiles[p]| == SHIP_PIECES)
      && started == (PlayerSet() <= joined)
      && (forall p :: p in shots ==> IsUint8Coordinate(shots[p]))
      && played <= PlayerSet()
      && reported <= played
      && destroyed <= PlayerSet()
      && (forall p :: p in destroyed ==> HitsOf(hits, p) >= SHIP_PIECES)
      && (!started ==> played == {} && destroyed == {})
      && gameOver == (CountAlive(players, destroyed) <= 1)
      && (gameOver ==> played == {})
    }

    /** The state right after deployment: nobody has joined or played. */
    ghost predicate Fresh()
      reads this
    {
      && joined == {} && shipTiles == map[] && shots == map[]
      && played == {} && reported == {} && hits == map[] && destroyed == {}
      && !started && !gameOver
    }

    constructor (deployer: Address, playersAddress: seq<Address>)
      requires |playersAddress| == PLAYER_COUNT
      ensures Valid() && Fresh() && players == playersAddress && owner == deployer
    {
      players, owner := playersAddress, deployer;
      joined, shipTiles, shots := {}, map[], map[];
      played, reported, hits, destroyed := {}, {}, map[], {};
      started, gameOver := false, false;
      new;
      CountAliveNoneDestroyed(playersAddress);
    }

    /**
     * Deployment by `deployer`, who becomes the owner: any player list whose
     * length is not `PLAYER_COUNT` is refused.
     */
    static method Deploy(deployer: Address, playersAddress: seq<Address>) returns (r: Result<BattleShipGame, GameError>)
      ensures r.Failure? <==> |playersAddress| != PLAYER_COUNT
      ensures r.Failure? ==> r.error == InvalidPlayerCount
      ensures r.Success? ==> fresh(r.value) && r.value.Valid() && r.value.Fresh()
      ensures r.Success? ==> r.value.players == playersAddress && r.value.owner == deployer
    {
      if |playersAddress| != PLAYER_COUNT {
        return Failure(InvalidPlayerCount);
      }
      var game := new BattleShipGame(deployer, playersAddress);
      return Success(game);
    }

    function IsGameStarted(): bool
      reads this
    {
      started
    }

    function IsGameOver(): bool
      reads this
    {
      gameOver
    }

    /** Every player has fired this turn. */
    function IsTurnOver(): bool
      reads this
    {
      PlayerSet() <= played
    }

    /** Every player has reported on this turn's shots. */
    function HasReportedShots(): bool
      reads this
    {
      PlayerSet() <= reported
    }

    function PlayerHasPlayed(a: Address): bool
      reads this
    {
      a in played
    }

    function DestroyedPlayers(a: Address): bool
      reads this
    {
      a in destroyed
    }

    /** The public `playerShots` getter. */
    function PlayerShots(a: Address): Coordinate
      reads this
    {
      ShotAt(shots, a)
    }

    function HitCount(a: Address): nat
      reads this
    {
      HitsOf(hits, a)
    }

    /** `playersAddress(i)`: the i-th deployment address; out of range reverts. */
    function PlayersAddress(i: nat): (r: Result<Address, GameError>)
      reads this
      requires Valid()
      ensures r.Success? <==> i < PLAYER_COUNT
      ensures r.Success? ==> r.value == players[i]
      ensures r.Failure? ==> r.error == IndexOutOfRange
    {
      if i < |players| then Success(players[i]) else Failure(IndexOutOfRange)
    }

    /**
     * `joinGame`: a participant that has not joined commits exactly
     * `SHIP_PIECES` distinct tile signatures; the game starts once every
     * participant has joined.
     */
    method JoinGame(caller: Address, ships: seq<Signature>) returns (r: Outcome<GameError>)
      requires Valid()
      modifies this
      ensures Valid()
      ensures old(gameOver) ==> r == Fail(GameIsOver)
      ensures !old(gameOver) && caller !in players ==> r == Fail(NotAParticipant)
      ensures !old(gameOver) && caller in players && caller in old(joined) ==> r == Fail(AlreadyJoined)
      ensures !old(gameOver) && caller in players && caller !in old(joined) && |ships| != SHIP_PIECES
              ==> r == Fail(WrongPieceCount)
      ensures !old(gameOver) && caller in players && caller !in old(joined) && |ships| == SHIP_PIECES
              ==> r == (if Distinct(ships) then Pass else Fail(TileTaken))
      ensures old(started) ==> r.Fail?
      ensures r.Fail? ==> unchanged(this)
      ensures r.Pass? ==> joined == old(joined) + {caller}
      ensures r.Pass? ==> shipTiles == old(shipTiles)[caller := set s | s in ships]
      ensures r.Pass? ==> started == (PlayerSet() <= joined)
      ensures r.Pass? ==> shots == old(shots) && played == old(played) && reported == old(reported)
      ensures r.Pass? ==> hits == old(hits) && destroyed == old(destroyed) && gameOver == old(gameOver)
    {
      if gameOver {
        return Fail(GameIsOver);
      }
      if caller !in players {
        return Fail(NotAParticipant);
      }
      if caller in joined {
        return Fail(AlreadyJoined);
      }
      if |ships| != SHIP_PIECES {
        return Fail(WrongPieceCount);
      }
      var placed, distinct := PlaceTiles(ships);
      if !distinct {
        return Fail(TileTaken);
      }
      joined := joined + {caller};
      shipTiles := shipTiles[caller := placed];
      started := PlayerSet() <= joined;
      return Pass;
    }

    /** `takeAShot`: each player fires once per turn, only while the game runs. */
    method TakeAShot(caller: Address, shot: Coordinate) returns (r: Outcome<GameError>)
      requires Valid()
      modifies this
      ensures Valid()
      ensures !IsUint8Coordinate(shot) ==> r == Fail(CoordinateOutOfRange)
      ensures IsUint8Coordinate(shot) && !old(started) ==> r == Fail(GameNotStarted)
      ensures IsUint8Coordinate(shot) && old(started) && old(gameOver) ==> r == Fail(GameIsOver)
      ensures IsUint8Coordinate(shot) && old(started) && !old(gameOver) && caller !in players
              ==> r == Fail(NotAParticipant)
      ensures IsUint8Coordinate(shot) && old(started) && !old(gameOver) && caller in players
              ==> r == (if caller in old(played) then Fail(AlreadyPlayed) else Pass)
      ensures r.Fail? ==> unchanged(this)
      ensures r.Pass? ==> played == old(played) + {caller} && shots == old(shots)[caller := shot]
      ensures r.Pass? ==> joined == old(joined) && shipTiles == old(shipTiles) && reported == old(reported)
      ensures r.Pass? ==> hits == old(hits) && destroyed == old(destroyed)
      ensures r.Pass? ==> started == old(started) && gameOver == old(gameOver)
    {
      if !IsUint8Coordinate(shot) {
        return Fail(CoordinateOutOfRange);
      }
      if !started {
        return Fail(GameNotStarted);
      }
      if gameOver {
        return Fail(GameIsOver);
      }
      if caller !in players {
        return Fail(NotAParticipant);
      }
      if caller in played {
        return Fail(AlreadyPlayed);
      }
      shots := shots[caller := shot];
      played := played + {caller};
      return Pass;
    }

    /**
     * The loop of `reportHits`: each proof must be the reporter's signature
     * over the shot on record for its `shotBy` address, and yields the event
     * for that shot; the hits among the events are counted.
     */
    method JudgeProofs(caller: Address, tiles: set<Signature>, proofs: seq<ShipShotProof>)
      returns (ok: bool, events: seq<ShotReport>, hitCount: nat)
      requires Valid()
      ensures ok <==> forall i :: 0 <= i < |proofs| ==> Attests(caller, shots, proofs[i])
      ensures ok ==> events == Reports(caller, tiles, shots, proofs) && hitCount == CountHits(events)
    {
      events, hitCount := [], 0;
      for i := 0 to |proofs|
        invariant events == Reports(caller, tiles, shots, proofs[..i])
        invariant hitCount == CountHits(events)
        invariant forall k :: 0 <= k < i ==> Attests(caller, shots, proofs[k])
      {
        var proof := proofs[i];
        var shot := ShotAt(shots, proof.shotBy);
        if Recover(CoordinateHash(shot), proof.signature) != caller {
          return false, [], 0;
        }
        var isHit := proof.signature in tiles;
        assert events + [ShotReport(shot, caller, proof.shotBy, isHit)]
            == Reports(caller, tiles, shots, proofs[..i + 1]);
        events := events + [ShotReport(shot, caller, proof.shotBy, isHit)];
        if isHit {
          hitCount := hitCount + 1;
        }
      }
      assert proofs[..|proofs|] == proofs;
      ok := true;
    }

    /**
     * `reportHits`: once every player has fired, a player signs the shot on
     * record for each `shotBy` address. Every proof must recover to the
     * reporter; each emits one `ShotReport`, a hit exactly when the signature
     * is one of the reporter's committed tiles, and the hits are added to the
     * reporter's own count.
     */
    method ReportHits(caller: Address, proofs: seq<ShipShotProof>) returns (r: Outcome<GameError>, events: seq<ShotReport>)
      requires Valid()
      modifies this
      ensures Valid()
      ensures !old(started) ==> r == Fail(GameNotStarted)
      ensures old(started) && old(gameOver) ==> r == Fail(GameIsOver)
      ensures old(started) && !old(gameOver) && caller !in players ==> r == Fail(NotAParticipant)
      ensures old(started) && !old(gameOver) && caller in players && !old(IsTurnOver())
              ==> r == Fail(TurnNotOver)
      ensures old(started) && !old(gameOver) && caller in players && old(IsTurnOver())
              ==> (r.Pass? <==> forall i :: 0 <= i < |proofs| ==> old(Attests(caller, shots, proofs[i])))
      ensures r.Fail? ==> unchanged(this) && events == []
      ensures r.Pass? ==> caller in shipTiles && events == Reports(caller, shipTiles[caller], shots, proofs)
      ensures r.Pass? ==> hits == old(hits)[caller := old(HitCount(caller)) + CountHits(events)]
      ensures r.Pass? ==> reported == old(reported) + {caller}
      ensures r.Pass? ==> joined == old(joined) && shipTiles == old(shipTiles) && shots == old(shots)
      ensures r.Pass? ==> played == old(played) && destroyed == old(destroyed)
      ensures r.Pass? ==> started == old(started) && gameOver == old(gameOver)
    {
      events := [];
      if !started {
        return Fail(GameNotStarted), [];
      }
      if gameOver {
        return Fail(GameIsOver), [];
      }
      if caller !in players {
        return Fail(NotAParticipant), [];
      }
      if !IsTurnOver() {
        return Fail(TurnNotOver), [];
      }
      var ok, emitted, hitCount := JudgeProofs(caller, shipTiles[caller], proofs);
      if !ok {
        return Fail(InvalidProof), [];
      }
      hits := hits[caller := HitCount(caller) + hitCount];
      reported := reported + {caller};
      return Pass, emitted;
    }

    /**
     * The loop of `endTurn`: a player is destroyed once its confirmed hits
     * reach `SHIP_PIECES`; the others are counted as alive.
     */
    method TallyFleets() returns (nowDestroyed: set<Address>, alive: nat)
      requires Valid()
      ensures nowDestroyed == set p | p in players && HitCount(p) >= SHIP_PIECES
      ensures destroyed <= nowDestroyed
      ensures alive == CountAlive(players, nowDestroyed)
    {
      ghost var doomed := set p | p in players && HitCount(p) >= SHIP_PIECES;
      nowDestroyed, alive := destroyed, 0;
      for i := 0 to |players|
        invariant nowDestroyed
                  == destroyed + set k | 0 <= k < i && HitCount(players[k]) >= SHIP_PIECES :: players[k]
        invariant alive == CountAlive(players[..i], doomed)
      {
        assert players[..i + 1][..i] == players[..i];
        assert players[i] in doomed <==> HitCount(players[i]) >= SHIP_PIECES;
        if HitCount(players[i]) >= SHIP_PIECES {
          nowDestroyed := nowDestroyed + {players[i]};
        } else {
          alive := alive + 1;
        }
      }
      assert players[..|players|] == players;
      forall p | p in doomed
        ensures p in nowDestroyed
      {
        var k :| 0 <= k < |players| && players[k] == p;
      }
    }

    /**
     * `endTurn`: once every player has reported, clear the turn's flags, mark
     * as destroyed every player whose confirmed hits reach `SHIP_PIECES`, and
     * end the game when at most one player survives.
     */
    method EndTurn() returns (r: Outcome<GameError>)
      requires Valid()
      modifies this
      ensures Valid()
      ensures !old(started) ==> r == Fail(GameNotStarted)
      ensures old(started) && old(gameOver) ==> r == Fail(GameIsOver)
      ensures old(started) && !old(gameOver) ==> (r.Pass? <==> old(HasReportedShots()))
      ensures old(started) && !old(gameOver) && !old(HasReportedShots()) ==> r == Fail(ShotsNotReported)
      ensures r.Fail? ==> unchanged(this)
      ensures r.Pass? ==> played == {} && reported == {}
      ensures r.Pass? ==> destroyed == set p | p in players && HitCount(p) >= SHIP_PIECES
      ensures r.Pass? ==> gameOver == (CountAlive(players, destroyed) <= 1)
      ensures r.Pass? ==> joined == old(joined) && shipTiles == old(shipTiles) && shots == old(shots)
      ensures r.Pass? ==> hits == old(hits) && started == old(started)
    {
      if !started {
        return Fail(GameNotStarted);
      }
      if gameOver {
        return Fail(GameIsOver);
      }
      if !HasReportedShots() {
        return Fail(ShotsNotReported);
      }
      var nowDestroyed, alive := TallyFleets();
      destroyed := nowDestroyed;
      played := {};
      reported := {};
      gameOver := alive <= 1;
      return Pass;
    }

    /**
     * `getWinner`: reverts while the game runs; afterwards the surviving
     * player, or the zero address when every fleet was destroyed (a draw).
     */
    method GetWinner() returns (r: Result<Address, GameError>)
      requires Valid()
      ensures r.Failure? <==> !gameOver
      ensures r.Failure? ==> r.error == GameNotOver
      ensures r.Success? && (forall i :: 0 <= i < |players| ==> players[i] in destroyed) ==> r.value == ZeroAddress
      ensures r.Success? && (exists i :: 0 <= i < |players| && players[i] !in destroyed)
              ==> r.value in players && r.value !in destroyed
      ensures r.Success? ==> forall i :: 0 <= i < |players| && players[i] !in destroyed ==> players[i] == r.value
    {
      if !gameOver {
        return Failure(GameNotOver);
      }
      for i := 0 to |players|
        invariant forall k :: 0 <= k < i ==> players[k] in destroyed
      {
        if players[i] !in destroyed {
          forall j | 0 <= j < |players| && players[j] !in destroyed
            ensures players[j] == players[i]
          {
            AtMostOneSurvivor(players, destroyed, i, j);
          }
          return Success(players[i]);
        }
      }
      return Success(ZeroAddress);
    }
  }
}
