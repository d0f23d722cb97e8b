/**
 * Headings and the eight compass sectors. A heading is a real number of
 * degrees; the comparisons below are exact.
 */
module Compass {
  import opened Wrappers
  import opened Failures

  /** The members of CompassDirection, in declaration order. */
  datatype Direction = North | East | South | West | NorthEast | SouthEast | SouthWest | NorthWest

  function Value(d: Direction): string
  {
    match d
    case North => "N"
    case East => "E"
    case South => "S"
    case West => "W"
    case NorthEast => "NE"
    case SouthEast => "SE"
    case SouthWest => "SW"
    case NorthWest => "NW"
  }

  /** The eight strings are pairwise distinct. */
  lemma ValueInjective(a: Direction, b: Direction)
    ensures Value(a) == Value(b) ==> a == b
  {
  }

  /** Position going clockwise from North. */
  function Clockwise(d: Direction): (k: nat)
    ensures k < 8
  {
    match d
    case North => 0
    case NorthEast => 1
    case East => 2
    case SouthEast => 3
    case South => 4
    case SouthWest => 5
    case West => 6
    case NorthWest => 7
  }

  /**
   * The sector a direction names: 45 degrees wide, centred on 45 times its
   * clockwise position, closed at the lower edge and open at the upper one.
   * North owns every heading that is not in one of the other seven sectors,
   * including everything below 0 and from 360 on.
   */
  predicate InSector(d: Direction, heading: real)
  {
    if d == North then heading < 22.5 || heading >= 337.5
    else
      var lower := 45.0 * (Clockwise(d) as real) - 22.5;
      lower <= heading < lower + 45.0
  }

  /**
   * `CompassDirection.get_direction`: the first branch whose half-open range
   * holds the heading. The final branch, which raises, is kept; the contract
   * shows that no real heading reaches it.
   */
  function GetDirection(heading: real): (r: Result<Direction, Failure>)
    ensures r.Ok?
    ensures InSector(r.value, heading)
  {
    if heading >= 337.5 || heading < 22.5 then Ok(North)
    else if 22.5 <= heading < 67.5 then Ok(NorthEast)
    else if 67.5 <= heading < 112.5 then Ok(East)
    else if 112.5 <= heading < 157.5 then Ok(SouthEast)
    else if 157.5 <= heading < 202.5 then Ok(South)
    else if 202.5 <= heading < 247.5 then Ok(SouthWest)
    else if 247.5 <= heading < 292.5 then Ok(West)
    else if 292.5 <= heading < 337.5 then Ok(NorthWest)
    else Err(HeadingOutOfRange(heading))
  }

  /** The sectors do not overlap, so GetDirection yields exactly the direction whose sector holds the heading. */
  lemma GetDirectionIff(heading: real, d: Direction)
    ensures GetDirection(heading) == Ok(d) <==> InSector(d, heading)
  {
  }

  /** The same sectors by arithmetic: shift by half a sector, then count whole sectors, modulo 8. */
  function SectorByDivision(heading: real): (k: nat)
    requires 0.0 <= heading < 360.0
    ensures k < 8
  {
    ((heading + 22.5) / 45.0).Floor % 8
  }

  lemma GetDirectionByDivision(heading: real)
    requires 0.0 <= heading < 360.0
    ensures Clockwise(GetDirection(heading).value) == SectorByDivision(heading)
  {
    var q := ((heading + 22.5) / 45.0).Floor;
    assert 0 <= q <= 8;
  }

  /** Edge values go to the sector above them. */
  lemma BoundariesGoUp()
    ensures GetDirection(22.5) == Ok(NorthEast)
    ensures GetDirection(67.5) == Ok(East)
    ensures GetDirection(292.5) == Ok(NorthWest)
    ensures GetDirection(337.5) == Ok(North)
    ensures GetDirection(22.4999) == Ok(North)
    ensures GetDirection(359.9999) == Ok(North)
  {
  }

  /** Headings outside [0, 360) are not rejected: they fall to North. */
  lemma OutsideCircleIsNorth()
    ensures GetDirection(360.0) == Ok(North)
    ensures GetDirection(-1.0) == Ok(North)
  {
  }

  /** Each sector's centre maps to its own direction. */
  lemma CentresMapToThemselves(d: Direction)
    ensures GetDirection(45.0 * (Clockwise(d) as real)) == Ok(d)
  {
  }

  /** `CompassModel`: a heading together with the direction derived from it. */
  datatype CompassModel = CompassModel(heading: real, direction: Direction)

  /** `CompassModel(heading)`: construction derives the direction and cannot fail. */
  function NewCompassModel(heading: real): (r: Result<CompassModel, Failure>)
    ensures r.Ok?
    ensures r.value.heading == heading
    ensures GetDirection(heading) == Ok(r.value.direction)
  {
    match GetDirection(heading)
    case Ok(direction) => Ok(CompassModel(heading, direction))
    case Err(e) => Err(e)
  }
}
