/**
 * The client side of a Battleship game: building the per-turn shot proofs
 * from the game's public shot record, and the turn driver that has every
 * player fire, report and close the turn, round after round.
 */
module GameDriver {
  import opened Wrappers
  import opened Crypto
  import opened GameUtils
  import opened BattleShip

  /** `Array.prototype.flat` on a list of lists. */
  function Flatten<T>(xss: seq<seq<T>>): (xs: seq<T>)
    ensures |xss| == 0 ==> xs == []
  {
    if xss == [] then [] else xss[0] + Flatten(xss[1..])
  }

  /** Flattening the signed ships gives the signature of each tile of the flattened fleet. */
  lemma {:induction false} FlattenSigned(signer: Key, ships: seq<Ship>, signed: seq<seq<Signature>>)
    requires |signed| == |ships|
    requires forall i :: 0 <= i < |ships| ==> SignedShip(signer, ships[i], signed[i])
    ensures SignedShip(signer, Flatten(ships), Flatten(signed))
  {
    if ships != [] {
      FlattenSigned(signer, ships[1..], signed[1..]);
      var head, rest := ships[0], Flatten(ships[1..]);
      var sigHead, sigRest := signed[0], Flatten(signed[1..]);
      assert SignedShip(signer, head, sigHead);
      forall k | 0 <= k < |head + rest|
        ensures IsUint8Coordinate((head + rest)[k])
        ensures (sigHead + sigRest)[k] == TileSignature(signer, (head + rest)[k])
      {
        if k >= |head| {
          assert (head + rest)[k] == rest[k - |head|];
          assert (sigHead + sigRest)[k] == sigRest[k - |head|];
        }
      }
    }
  }

  /**
   * The meaning of a hit. When the reporter committed the signatures of the
   * tiles of `fleet` and the proof recovers to the reporter, a hit means the
   * shot on record lies on the fleet. When the proof is the reporter's own
   * tile signature of that shot, as `generateShipShotProof` builds it, the
   * proof is judged a hit exactly when the shot lies on the fleet.
   */
  lemma HitIffShotOnFleet(signer: Key, fleet: seq<Coordinate>, sigs: seq<Signature>,
                          shots: map<Address, Coordinate>, proof: ShipShotProof)
    requires SignedShip(signer, fleet, sigs)
    requires Attests(AddressOf(signer), shots, proof)
    ensures ProofReport(AddressOf(signer), (set s | s in sigs), shots, proof).isHit
            ==> ShotAt(shots, proof.shotBy) in fleet
    ensures proof.signature == TileSignature(signer, ShotAt(shots, proof.shotBy)) ==>
            (ProofReport(AddressOf(signer), (set s | s in sigs), shots, proof).isHit
             <==> ShotAt(shots, proof.shotBy) in fleet)
  {
    var shot := ShotAt(shots, proof.shotBy);
    if proof.signature in (set s | s in sigs) {
      var k :| 0 <= k < |sigs| && sigs[k] == proof.signature;
      RecoverBindsDigest(signer, CoordinateHash(fleet[k]), CoordinateHash(shot));
      CoordinateHashInjective(fleet[k], shot);
    }
    if proof.signature == TileSignature(signer, shot) && shot in fleet {
      var k :| 0 <= k < |fleet| && fleet[k] == shot;
      assert sigs[k] in (set s | s in sigs);
    }
  }

  /**
   * `generateShipShotProof`: one proof per address of `allPlayers`, in order,
   * each the player's signature over the shot on record for that address.
   */
  method GenerateShipShotProof(player: Key, allPlayers: seq<Address>, game: BattleShipGame)
    returns (shotReports: seq<ShipShotProof>)
    requires game.Valid()
    ensures |shotReports| == |allPlayers|
    ensures forall i :: 0 <= i < |allPlayers| ==> shotReports[i].shotBy == allPlayers[i]
    ensures forall i :: 0 <= i < |allPlayers| ==>
      IsUint8Coordinate(game.PlayerShots(allPlayers[i]))
      && shotReports[i].signature == TileSignature(player, game.PlayerShots(allPlayers[i]))
    ensures forall i :: 0 <= i < |allPlayers| ==> Attests(AddressOf(player), game.shots, shotReports[i])
  {
    shotReports := [];
    for i := 0 to |allPlayers|
      invariant |shotReports| == i
      invariant forall k :: 0 <= k < i ==> shotReports[k].shotBy == allPlayers[k]
      invariant forall k :: 0 <= k < i ==>
        IsUint8Coordinate(game.PlayerShots(allPlayers[k]))
        && shotReports[k].signature == TileSignature(player, game.PlayerShots(allPlayers[k]))
    {
      var playerShot := game.PlayerShots(allPlayers[i]);
      var signed := SignCoordinate(playerShot, player);
      if signed.Failure? {
        // every recorded shot fits a uint8 and the default is (0, 0)
        assert false;
      }
      shotReports := shotReports + [ShipShotProof(signed.value.flatSig, allPlayers[i])];
    }
  }

  /** The number of shots in `row` that land on the tiles `signer` committed. */
  function TurnHitsOn(signer: Key, tiles: set<Signature>, row: seq<Coordinate>): nat
  {
    if row == [] then 0
    else
      var shot := row[|row| - 1];
      TurnHitsOn(signer, tiles, row[..|row| - 1])
      + (if IsUint8Coordinate(shot) && TileSignature(signer, shot) in tiles then 1 else 0)
  }

  /** The shots of the players seated in the first `n` columns. */
  function Columns(row: seq<Coordinate>, n: nat): seq<Coordinate>
  {
    if n <= |row| then row[..n] else row
  }

  /** The hits landed on `signer`'s tiles during the first `t` turns of `rows`. */
  function HitsAfter(signer: Key, tiles: set<Signature>, rows: seq<seq<Coordinate>>, n: nat, t: nat): nat
    requires t <= |rows|
  {
    if t == 0 then 0
    else HitsAfter(signer, tiles, rows, n, t - 1) + TurnHitsOn(signer, tiles, Columns(rows[t - 1], n))
  }

  /**
   * The hits one report adds: reporting, for every seated address, the
   * reporter's signature over that address's shot counts exactly the shots
   * that land on the reporter's tiles.
   */
  lemma {:induction false} ReportedHitsCount(signer: Key, tiles: set<Signature>, shots: map<Address, Coordinate>,
                                             addrs: seq<Address>, row: seq<Coordinate>,
                                             proofs: seq<ShipShotProof>, k: nat)
    requires |proofs| == |addrs| == |row| && k <= |row|
    requires forall j :: 0 <= j < |row| ==> IsUint8Coordinate(row[j]) && ShotAt(shots, addrs[j]) == row[j]
    requires forall j :: 0 <= j < |row| ==> proofs[j] == ShipShotProof(TileSignature(signer, row[j]), addrs[j])
    ensures CountHits(Reports(AddressOf(signer), tiles, shots, proofs[..k])) == TurnHitsOn(signer, tiles, row[..k])
  {
    if k > 0 {
      ReportedHitsCount(signer, tiles, shots, addrs, row, proofs, k - 1);
      var events := Reports(AddressOf(signer), tiles, shots, proofs[..k]);
      assert events[..k - 1] == Reports(AddressOf(signer), tiles, shots, proofs[..k - 1]);
      assert row[..k][..k - 1] == row[..k - 1];
    }
  }

  /**
   * The proofs `generateShipShotProof` builds for a row of on-board shots
   * all attest, and together they count the row's shots on the reporter's tiles.
   */
  lemma ReportPrepared(signer: Key, tiles: set<Signature>, shots: map<Address, Coordinate>,
                       addrs: seq<Address>, row: seq<Coordinate>, proofs: seq<ShipShotProof>)
    requires |proofs| == |addrs| == |row|
    requires forall j :: 0 <= j < |row| ==> IsUint8Coordinate(row[j]) && ShotAt(shots, addrs[j]) == row[j]
    requires forall j :: 0 <= j < |addrs| ==>
      proofs[j].shotBy == addrs[j] && proofs[j].signature == TileSignature(signer, ShotAt(shots, addrs[j]))
    ensures forall j :: 0 <= j < |proofs| ==> Attests(AddressOf(signer), shots, proofs[j])
    ensures CountHits(Reports(AddressOf(signer), tiles, shots, proofs)) == TurnHitsOn(signer, tiles, row)
  {
    ReportedHitsCount(signer, tiles, shots, addrs, row, proofs, |row|);
    assert proofs[..|row|] == proofs && row[..|row|] == row;
  }

  /** 1 when `shot` fits the board and lies on `fleet`, else 0. */
  function Lands(fleet: set<Coordinate>, shot: Coordinate): nat
  {
    if IsUint8Coordinate(shot) && shot in fleet then 1 else 0
  }

  /** The number of shots in `row` that land on `fleet`, told by coordinates alone. */
  function ShotsOnFleet(fleet: set<Coordinate>, row: seq<Coordinate>): nat
  {
    if row == [] then 0
    else ShotsOnFleet(fleet, row[..|row| - 1]) + Lands(fleet, row[|row| - 1])
  }

  /** The shots landed on `fleet` during the first `t` turns of `rows`, told by coordinates alone. */
  function FleetHitsAfter(fleet: set<Coordinate>, rows: seq<seq<Coordinate>>, n: nat, t: nat): nat
    requires t <= |rows|
  {
    if t == 0 then 0
    else FleetHitsAfter(fleet, rows, n, t - 1) + ShotsOnFleet(fleet, Columns(rows[t - 1], n))
  }

  /**
   * Counting by signatures is counting by coordinates: against the tiles a
   * player committed by signing `fleet`, the shots of a row that the
   * player's signature matches are exactly the shots that lie on `fleet`.
   */
  lemma {:induction false} TurnHitsOnFleet(signer: Key, fleet: seq<Coordinate>, sigs: seq<Signature>,
                                           row: seq<Coordinate>)
    requires SignedShip(signer, fleet, sigs)
    ensures TurnHitsOn(signer, (set s | s in sigs), row) == ShotsOnFleet((set c | c in fleet), row)
  {
    if row != [] {
      TurnHitsOnFleet(signer, fleet, sigs, row[..|row| - 1]);
      var shot := row[|row| - 1];
      if IsUint8Coordinate(shot) {
        if TileSignature(signer, shot) in (set s | s in sigs) {
          var k :| 0 <= k < |sigs| && sigs[k] == TileSignature(signer, shot);
          TileSignatureInjective(signer, fleet[k], shot);
        }
        if shot in (set c | c in fleet) {
          var k :| 0 <= k < |fleet| && fleet[k] == shot;
          assert sigs[k] in (set s | s in sigs);
        }
      }
    }
  }

  /** Turn after turn, the count by signatures matches the count by coordinates. */
  lemma {:induction false} HitsAfterOnFleet(signer: Key, fleet: seq<Coordinate>, sigs: seq<Signature>,
                                            rows: seq<seq<Coordinate>>, n: nat, t: nat)
    requires SignedShip(signer, fleet, sigs) && t <= |rows|
    ensures HitsAfter(signer, (set s | s in sigs), rows, n, t) == FleetHitsAfter((set c | c in fleet), rows, n, t)
  {
    if t > 0 {
      HitsAfterOnFleet(signer, fleet, sigs, rows, n, t - 1);
      TurnHitsOnFleet(signer, fleet, sigs, Columns(rows[t - 1], n));
    }
  }

  /** Signing tiles that are pairwise apart gives signatures that are pairwise apart. */
  lemma SignedDistinct(signer: Key, fleet: seq<Coordinate>, sigs: seq<Signature>)
    requires SignedShip(signer, fleet, sigs)
    requires forall i, j :: 0 <= i < j < |fleet| ==> fleet[i] != fleet[j]
    ensures Distinct(sigs)
  {
    forall i, j | 0 <= i < j < |sigs|
      ensures sigs[i] != sigs[j]
    {
      TileSignatureInjective(signer, fleet[i], fleet[j]);
    }
  }

  /** `signers[i]` holds the key of the i-th participant, and no key plays twice. */
  predicate Seated(players: seq<Address>, signers: seq<Key>)
  {
    && |players| == |signers|
    && (forall i :: 0 <= i < |signers| ==> players[i] == AddressOf(signers[i]))
    && (forall i, j :: 0 <= i < j < |signers| ==> signers[i] != signers[j])
  }

  /** A running game between turns, played by `signers`. */
  ghost predicate AtTurnStart(game: BattleShipGame, signers: seq<Key>)
    reads game
  {
    && game.Valid() && game.started && !game.gameOver
    && game.played == {} && game.reported == {}
    && Seated(game.players, signers)
  }

  predicate RowOnBoard(row: seq<Coordinate>, n: nat)
  {
    n <= |row| && forall j :: 0 <= j < n ==> IsUint8Coordinate(row[j])
  }

  function TilesOf(tiles: map<Address, set<Signature>>, a: Address): set<Signature>
  {
    if a in tiles then tiles[a] else {}
  }

  /** The game is ready for the shots of a turn: a running game between turns. */
  ghost predicate ReadyToFire(game: BattleShipGame, signers: seq<Key>, playersAddress: seq<Address>)
    reads game
  {
    && AtTurnStart(game, signers)
    && playersAddress == game.players
  }

  /** The first half of a round: each seated player fires its column of `row`, in seat order. */
  method FireRow(game: BattleShipGame, row: seq<Coordinate>, signers: seq<Key>, playersAddress: seq<Address>)
    returns (r: Outcome<GameError>)
    requires game.Valid()
    requires |row| >= |signers| && |playersAddress| == |signers|
    requires forall i :: 0 <= i < |signers| ==> playersAddress[i] == AddressOf(signers[i])
    modifies game
    ensures game.Valid()
    ensures old(ReadyToFire(game, signers, playersAddress)) && RowOnBoard(row, |signers|) ==>
      && r.Pass?
      && game.started && !game.gameOver && game.IsTurnOver() && game.reported == {}
      && game.hits == old(game.hits) && game.shipTiles == old(game.shipTiles) && game.joined == old(game.joined)
      && game.destroyed == old(game.destroyed)
      && forall k :: 0 <= k < |signers| ==> ShotAt(game.shots, playersAddress[k]) == row[k]
  {
    ghost var ready := ReadyToFire(game, signers, playersAddress) && RowOnBoard(row, |signers|);
    for index := 0 to |signers|
      invariant game.Valid()
      invariant ready ==> game.started && !game.gameOver && game.reported == {}
      invariant ready ==> game.hits == old(game.hits) && game.shipTiles == old(game.shipTiles)
      invariant ready ==> game.joined == old(game.joined) && game.destroyed == old(game.destroyed)
      invariant ready ==> game.played == set k | 0 <= k < index :: playersAddress[k]
      invariant ready ==> forall k :: 0 <= k < index ==> ShotAt(game.shots, playersAddress[k]) == row[k]
    {
      if ready {
        forall k | 0 <= k < index
          ensures playersAddress[k] != playersAddress[index]
        {
          AddressOfInjective(signers[k], signers[index]);
        }
        assert playersAddress[index] in game.players;
      }
      r := game.TakeAShot(playersAddress[index], row[index]);
      if r.Fail? {
        return r;
      }
    }
    if ready {
      forall p | p in game.PlayerSet()
        ensures p in game.played
      {
        var k :| 0 <= k < |game.players| && game.players[k] == p;
      }
    }
    r := Pass;
  }

  /** Every seated player has fired its column of `row` this turn. */
  ghost predicate RowFired(game: BattleShipGame, row: seq<Coordinate>, signers: seq<Key>,
                           playersAddress: seq<Address>)
    reads game
  {
    && game.Valid() && game.started && !game.gameOver && game.IsTurnOver()
    && Seated(game.players, signers) && playersAddress == game.players
    && RowOnBoard(row, |signers|)
    && forall k :: 0 <= k < |signers| ==> ShotAt(game.shots, playersAddress[k]) == row[k]
  }

  /** One seated player's report on every recorded shot of the turn. */
  method ReportFor(game: BattleShipGame, index: nat, row: seq<Coordinate>, signers: seq<Key>,
                   playersAddress: seq<Address>)
    returns (r: Outcome<GameError>)
    requires game.Valid()
    requires index < |signers| && |playersAddress| == |signers|
    modifies game
    ensures game.Valid()
    ensures old(RowFired(game, row, signers, playersAddress)) ==>
      && r.Pass?
      && RowFired(game, row, signers, playersAddress)
      && game.reported == old(game.reported) + {playersAddress[index]}
      && game.shipTiles == old(game.shipTiles) && game.joined == old(game.joined)
      && game.destroyed == old(game.destroyed)
      && game.HitCount(playersAddress[index]) == old(game.HitCount(playersAddress[index]))
           + TurnHitsOn(signers[index], TilesOf(game.shipTiles, playersAddress[index]), row[..|signers|])
      && forall k :: 0 <= k < |signers| && k != index ==>
           game.HitCount(playersAddress[k]) == old(game.HitCount(playersAddress[k]))
  {
    ghost var ready := RowFired(game, row, signers, playersAddress);
    var shotReports := GenerateShipShotProof(signers[index], playersAddress, game);
    if ready {
      assert playersAddress[index] in game.players;
      ReportPrepared(signers[index], TilesOf(game.shipTiles, playersAddress[index]), game.shots,
                     playersAddress, row[..|signers|], shotReports);
      forall k | 0 <= k < |signers| && k != index
        ensures playersAddress[k] != playersAddress[index]
      {
        AddressOfInjective(signers[k], signers[index]);
      }
    }
    var events;
    r, events := game.ReportHits(playersAddress[index], shotReports);
  }

  /**
   * The second half of a round: each seated player reports, for every seated
   * address, its signature over that address's recorded shot.
   */
  method ReportRow(game: BattleShipGame, row: seq<Coordinate>, signers: seq<Key>, playersAddress: seq<Address>)
    returns (r: Outcome<GameError>)
    requires game.Valid()
    requires |row| >= |signers| && |playersAddress| == |signers|
    modifies game
    ensures game.Valid()
    ensures old(RowFired(game, row, signers, playersAddress) && game.reported == {}) ==>
      && r.Pass?
      && game.started && !game.gameOver && game.HasReportedShots()
      && game.shipTiles == old(game.shipTiles) && game.joined == old(game.joined)
      && game.destroyed == old(game.destroyed)
      && forall k :: 0 <= k < |signers| ==>
           game.HitCount(playersAddress[k]) == old(game.HitCount(playersAddress[k]))
             + TurnHitsOn(signers[k], TilesOf(game.shipTiles, playersAddress[k]), row[..|signers|])
  {
    ghost var ready := RowFired(game, row, signers, playersAddress) && game.reported == {};
    ghost var n := |signers|;
    ghost var tiles0 := game.shipTiles;
    ghost var hits0 := game.hits;
    for index := 0 to |signers|
      invariant game.Valid()
      invariant ready ==> RowFired(game, row, signers, playersAddress)
      invariant ready ==> game.shipTiles == tiles0 && game.joined == old(game.joined)
      invariant ready ==> game.destroyed == old(game.destroyed)
      invariant ready ==> forall k :: 0 <= k < index ==> playersAddress[k] in game.reported
      invariant ready ==> forall k :: 0 <= k < n ==>
        HitsOf(game.hits, playersAddress[k]) == HitsOf(hits0, playersAddress[k])
          + (if k < index then TurnHitsOn(signers[k], TilesOf(tiles0, playersAddress[k]), row[..n]) else 0)
    {
      r := ReportFor(game, index, row, signers, playersAddress);
      if r.Fail? {
        return r;
      }
    }
    if ready {
      forall p | p in game.PlayerSet()
        ensures p in game.reported
      {
        var k :| 0 <= k < |game.players| && game.players[k] == p;
      }
    }
    r := Pass;
  }

  /**
   * One round of `playTurns`: every seated player fires its column of `row`,
   * then every player reports on all recorded shots, then the turn is closed.
   * From the start of a turn with shots on the board it always succeeds, and
   * each player's count grows by the shots of the row that land on its tiles.
   */
  method PlayTurn(game: BattleShipGame, row: seq<Coordinate>, signers: seq<Key>, playersAddress: seq<Address>)
    returns (r: Outcome<GameError>)
    requires game.Valid()
    requires |row| >= |signers| && |playersAddress| == |signers|
    requires forall i :: 0 <= i < |signers| ==> playersAddress[i] == AddressOf(signers[i])
    modifies game
    ensures game.Valid()
    ensures old(ReadyToFire(game, signers, playersAddress)) && RowOnBoard(row, |signers|) ==>
      && r.Pass?
      && game.joined == old(game.joined) && game.shipTiles == old(game.shipTiles)
      && game.started && game.played == {} && game.reported == {}
      && (forall i :: 0 <= i < |signers| ==>
            game.HitCount(playersAddress[i]) == old(game.HitCount(playersAddress[i]))
              + TurnHitsOn(signers[i], TilesOf(game.shipTiles, playersAddress[i]), row[..|signers|]))
      && game.destroyed == (set p | p in game.players && game.HitCount(p) >= SHIP_PIECES)
      && game.gameOver == (CountAlive(game.players, game.destroyed) <= 1)
  {
    r := FireRow(game, row, signers, playersAddress);
    if r.Fail? {
      return r;
    }
    r := ReportRow(game, row, signers, playersAddress);
    if r.Fail? {
      return r;
    }
    r := game.EndTurn();
  }

  /** The addresses of the signers, in order (`players.map(player => player.address)`). */
  function AddressesOf(signers: seq<Key>): (addrs: seq<Address>)
    ensures |addrs| == |signers|
    ensures forall i :: 0 <= i < |signers| ==> addrs[i] == AddressOf(signers[i])
  {
    seq(|signers|, i requires 0 <= i < |signers| => AddressOf(signers[i]))
  }

  predicate RowsOnBoard(rows: seq<seq<Coordinate>>, n: nat)
  {
    forall t :: 0 <= t < |rows| ==> RowOnBoard(rows[t], n)
  }

  /** The count of the player holding `signer` after `t` turns of `rows`, from `hits0`. */
  function HitsAfterTurns(hits0: map<Address, nat>, tiles: map<Address, set<Signature>>, signer: Key,
                          rows: seq<seq<Coordinate>>, n: nat, t: nat): nat
    requires t <= |rows|
  {
    HitsOf(hits0, AddressOf(signer)) + HitsAfter(signer, TilesOf(tiles, AddressOf(signer)), rows, n, t)
  }

  /** The players whose count has reached `SHIP_PIECES` after `t` turns of `rows`. */
  function DestroyedAfter(hits0: map<Address, nat>, tiles: map<Address, set<Signature>>, signers: seq<Key>,
                          rows: seq<seq<Coordinate>>, t: nat): set<Address>
    requires t <= |rows|
  {
    set i | 0 <= i < |signers| && HitsAfterTurns(hits0, tiles, signers[i], rows, |signers|, t) >= SHIP_PIECES
      :: AddressOf(signers[i])
  }

  /** One more turn adds the hits of that turn's row. */
  lemma HitsAfterTurnsStep(hits0: map<Address, nat>, tiles: map<Address, set<Signature>>, signer: Key,
                           rows: seq<seq<Coordinate>>, n: nat, t: nat)
    requires t < |rows| && n <= |rows[t]|
    ensures HitsAfterTurns(hits0, tiles, signer, rows, n, t + 1)
            == HitsAfterTurns(hits0, tiles, signer, rows, n, t)
               + TurnHitsOn(signer, TilesOf(tiles, AddressOf(signer)), rows[t][..n])
  {
  }

  /** Counts that agree with `HitsAfterTurns` seat by seat destroy exactly the fleets of `DestroyedAfter`. */
  lemma DestroyedAfterMatches(playersAddress: seq<Address>, hits: map<Address, nat>, hits0: map<Address, nat>,
                              tiles: map<Address, set<Signature>>, signers: seq<Key>,
                              rows: seq<seq<Coordinate>>, t: nat)
    requires t <= |rows| && Seated(playersAddress, signers)
    requires forall i :: 0 <= i < |signers| ==>
      HitsOf(hits, playersAddress[i]) == HitsAfterTurns(hits0, tiles, signers[i], rows, |signers|, t)
    ensures (set p | p in playersAddress && HitsOf(hits, p) >= SHIP_PIECES) == DestroyedAfter(hits0, tiles, signers, rows, t)
  {
    forall p | p in playersAddress && HitsOf(hits, p) >= SHIP_PIECES
      ensures p in DestroyedAfter(hits0, tiles, signers, rows, t)
    {
      var k :| 0 <= k < |signers| && playersAddress[k] == p;
    }
  }

  /** No turn before the last leaves fewer than two players standing. */
  predicate NoEarlyEnd(players: seq<Address>, hits0: map<Address, nat>, tiles: map<Address, set<Signature>>,
                       signers: seq<Key>, rows: seq<seq<Coordinate>>)
  {
    forall t :: 0 < t < |rows| ==> CountAlive(players, DestroyedAfter(hits0, tiles, signers, rows, t)) >= 2
  }

  /** The state `t` turns of `rows` leave behind, from the counts `hits0` and the tiles `tiles0`. */
  ghost predicate AfterTurns(game: BattleShipGame, signers: seq<Key>, hits0: map<Address, nat>,
                             tiles0: map<Address, set<Signature>>, rows: seq<seq<Coordinate>>, t: nat)
    reads game
    requires t <= |rows|
  {
    && game.Valid() && game.started && game.played == {} && game.reported == {}
    && game.shipTiles == tiles0 && Seated(game.players, signers)
    && (forall i :: 0 <= i < |signers| ==>
          game.HitCount(game.players[i]) == HitsAfterTurns(hits0, tiles0, signers[i], rows, |signers|, t))
    && (t > 0 ==>
          && game.destroyed == DestroyedAfter(hits0, tiles0, signers, rows, t)
          && game.gameOver == (CountAlive(game.players, game.destroyed) <= 1))
  }

  /** Turn `t` of `rows`: from the state of `t` turns and a running game, it leaves the state of `t + 1` turns. */
  method PlayNextTurn(rows: seq<seq<Coordinate>>, t: nat, signers: seq<Key>, playersAddress: seq<Address>,
                      game: BattleShipGame, ghost hits0: map<Address, nat>, ghost tiles0: map<Address, set<Signature>>)
    returns (r: Outcome<GameError>)
    requires game.Valid()
    requires t < |rows| && |rows[t]| >= |signers| && |playersAddress| == |signers|
    requires forall i :: 0 <= i < |signers| ==> playersAddress[i] == AddressOf(signers[i])
    modifies game
    ensures game.Valid()
    ensures old(AfterTurns(game, signers, hits0, tiles0, rows, t)) && !old(game.gameOver)
            && RowOnBoard(rows[t], |signers|) ==>
      r.Pass? && AfterTurns(game, signers, hits0, tiles0, rows, t + 1) && game.joined == old(game.joined)
  {
    ghost var ready := AfterTurns(game, signers, hits0, tiles0, rows, t) && !game.gameOver
                       && RowOnBoard(rows[t], |signers|);
    if ready {
      assert playersAddress == game.players;
    }
    r := PlayTurn(game, rows[t], signers, playersAddress);
    if ready {
      forall i | 0 <= i < |signers|
        ensures game.HitCount(playersAddress[i]) == HitsAfterTurns(hits0, tiles0, signers[i], rows, |signers|, t + 1)
      {
        HitsAfterTurnsStep(hits0, tiles0, signers[i], rows, |signers|, t);
      }
      DestroyedAfterMatches(game.players, game.hits, hits0, tiles0, signers, rows, t + 1);
    }
  }

  /**
   * `playTurns`: play the rows of `shots` as consecutive turns, the i-th
   * shot of a row fired by the i-th player. From a running game, with every
   * shot on the board and no fleet count forcing the game to end before the
   * last row, every call succeeds; each player's count then holds the shots
   * of all rows that landed on its tiles, and the fleets destroyed and the
   * game-over flag are those that count gives.
   */
  method PlayTurns(shots: seq<seq<Coordinate>>, players: seq<Key>, game: BattleShipGame)
    returns (r: Outcome<GameError>)
    requires game.Valid()
    requires forall t :: 0 <= t < |shots| ==> |shots[t]| >= |players|
    modifies game
    ensures game.Valid()
    ensures old(AtTurnStart(game, players)) && RowsOnBoard(shots, |players|)
            && old(NoEarlyEnd(game.players, game.hits, game.shipTiles, players, shots)) ==>
      && r.Pass?
      && game.joined == old(game.joined)
      && AfterTurns(game, players, old(game.hits), old(game.shipTiles), shots, |shots|)
  {
    var playersAddress := AddressesOf(players);
    ghost var ready := AtTurnStart(game, players) && RowsOnBoard(shots, |players|)
                       && NoEarlyEnd(game.players, game.hits, game.shipTiles, players, shots);
    ghost var hits0, tiles0 := game.hits, game.shipTiles;
    for t := 0 to |shots|
      invariant game.Valid()
      invariant ready ==> AfterTurns(game, players, hits0, tiles0, shots, t) && game.joined == old(game.joined)
      invariant ready && t < |shots| ==> !game.gameOver
    {
      r := PlayNextTurn(shots, t, players, playersAddress, game, hits0, tiles0);
      if r.Fail? {
        return r;
      }
    }
    r := Pass;
  }
}
