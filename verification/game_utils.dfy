/**
 * The client-side helpers of the Battleship sample: the coordinate and proof
 * types and the functions that sign ship tiles and shots before they are sent
 * to the game contract.
 */
module GameUtils {
  import opened Wrappers
  import opened Crypto

  /** A board tile; the client holds plain integers. */
  datatype Coordinate = Coordinate(x: int, y: int)

  /** The tiles one ship covers, in order. */
  type Ship = seq<Coordinate>

  /** A player's attestation about the shot that `shotBy` fired this turn. */
  datatype ShipShotProof = ShipShotProof(signature: Signature, shotBy: Address)

  /** What `signCoordinate` returns: the signature and the digest it signed. */
  datatype SignedCoordinate = SignedCoordinate(flatSig: Signature, hashedCoord: Digest)

  /** The packing of a coordinate throws when a value does not fit a `uint8`. */
  datatype SignError = ValueOutOfRange(coord: Coordinate)

  predicate IsUint8Coordinate(c: Coordinate)
  {
    0 <= c.x < 256 && 0 <= c.y < 256
  }

  /** `solidityPack(['uint8', 'uint8'], [x, y])`: one byte for each value. */
  function PackCoordinate(c: Coordinate): (bytes: seq<uint8>)
    requires IsUint8Coordinate(c)
    ensures |bytes| == 2 && bytes[0] as int == c.x && bytes[1] as int == c.y
  {
    [c.x as uint8, c.y as uint8]
  }

  /** The digest a coordinate is signed under. */
  function CoordinateHash(c: Coordinate): Digest
    requires IsUint8Coordinate(c)
  {
    Keccak(PackCoordinate(c))
  }

  /** The packed hash tells coordinates apart: it depends on both x and y. */
  lemma CoordinateHashInjective(c1: Coordinate, c2: Coordinate)
    requires IsUint8Coordinate(c1) && IsUint8Coordinate(c2)
    ensures CoordinateHash(c1) == CoordinateHash(c2) <==> c1 == c2
  {
    if CoordinateHash(c1) == CoordinateHash(c2) {
      var p1, p2 := PackCoordinate(c1), PackCoordinate(c2);
      assert p1 == p2;
      assert p1[0] == p2[0] && p1[1] == p2[1];
    }
  }

  /** The signature a player commits for a tile and attests a shot with. */
  function TileSignature(signer: Key, c: Coordinate): Signature
    requires IsUint8Coordinate(c)
  {
    Sign(signer, CoordinateHash(c))
  }

  /** One signer's tile signatures tell coordinates apart. */
  lemma TileSignatureInjective(signer: Key, c1: Coordinate, c2: Coordinate)
    requires IsUint8Coordinate(c1) && IsUint8Coordinate(c2)
    ensures TileSignature(signer, c1) == TileSignature(signer, c2) <==> c1 == c2
  {
    CoordinateHashInjective(c1, c2);
  }

  /**
   * `signCoordinate`: hash the packed coordinate and sign the digest. Fails
   * when a value does not fit a `uint8`; otherwise the signer's address is
   * what recovery from the returned digest and signature yields.
   */
  function SignCoordinate(c: Coordinate, signer: Key): (r: Result<SignedCoordinate, SignError>)
    ensures r.Success? <==> IsUint8Coordinate(c)
    ensures r.Success? ==> r.value.hashedCoord == CoordinateHash(c)
    ensures r.Success? ==> Recover(r.value.hashedCoord, r.value.flatSig) == AddressOf(signer)
    ensures r.Success? ==> r.value.flatSig == TileSignature(signer, c)
  {
    if IsUint8Coordinate(c) then
      var hashedCoord := CoordinateHash(c);
      Success(SignedCoordinate(Sign(signer, hashedCoord), hashedCoord))
    else
      Failure(ValueOutOfRange(c))
  }

  predicate ShipOnBoard(ship: Ship)
  {
    forall j :: 0 <= j < |ship| ==> IsUint8Coordinate(ship[j])
  }

  predicate FleetOnBoard(ships: seq<Ship>)
  {
    forall i :: 0 <= i < |ships| ==> ShipOnBoard(ships[i])
  }

  /** `sigs` holds the signer's signature of each tile of `ship`, in order. */
  predicate SignedShip(signer: Key, ship: Ship, sigs: seq<Signature>)
  {
    && ShipOnBoard(ship)
    && |sigs| == |ship|
    && forall j :: 0 <= j < |ship| ==> sigs[j] == TileSignature(signer, ship[j])
  }

  /**
   * `signShipCoordinates`: one list of signatures per ship, one signature per
   * tile, in the input's order; fails at the first tile that does not fit.
   */
  method SignShipCoordinates(ships: seq<Ship>, signer: Key) returns (r: Result<seq<seq<Signature>>, SignError>)
    ensures r.Success? <==> FleetOnBoard(ships)
    ensures r.Success? ==> |r.value| == |ships|
    ensures r.Success? ==> forall i :: 0 <= i < |ships| ==> SignedShip(signer, ships[i], r.value[i])
  {
    var signedShips: seq<seq<Signature>> := [];
    for i := 0 to |ships|
      invariant |signedShips| == i
      invariant forall a :: 0 <= a < i ==> SignedShip(signer, ships[a], signedShips[a])
    {
      var signedShip: seq<Signature> := [];
      for j := 0 to |ships[i]|
        invariant |signedShip| == j
        invariant forall b :: 0 <= b < j ==> IsUint8Coordinate(ships[i][b])
        invariant forall b :: 0 <= b < j ==> signedShip[b] == TileSignature(signer, ships[i][b])
      {
        var signed := SignCoordinate(ships[i][j], signer);
        if signed.Failure? {
          assert !ShipOnBoard(ships[i]);
          return Failure(signed.error);
        }
        signedShip := signedShip + [signed.value.flatSig];
      }
      signedShips := signedShips + [signedShip];
    }
    return Success(signedShips);
  }
}
