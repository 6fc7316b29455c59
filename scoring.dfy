/** calculatePoints: base points by platform type plus a capped combo bonus. */
module Scoring {
  import opened Entities

  /** The base points of a landing; every type without its own case is worth 10. */
  function BasePoints(kind: PlatformType): int {
    match kind
    case Spring => 50
    case Rocket => 100
    case Moving => 20
    case Breakable => 15
    case _ => 10
  }

  /** basePoints + Math.min(combo * 2, 50). */
  function CalculatePoints(kind: PlatformType, combo: int): (points: int)
    ensures combo >= 0 ==> BasePoints(kind) <= points <= BasePoints(kind) + 50
    ensures points == BasePoints(kind) + 50 <==> combo >= 25
    ensures combo < 25 ==> points == BasePoints(kind) + 2 * combo
  {
    var bonus := if combo * 2 < 50 then combo * 2 else 50;
    BasePoints(kind) + bonus
  }

  /** The points table, and the two worked cases: a first landing on a standard
      platform is worth 10, a landing on a spring with combo 9 is worth 68. */
  lemma PointsTable(combo: int)
    requires 0 <= combo
    ensures CalculatePoints(Green, combo) == CalculatePoints(Blue, combo)
                                         == CalculatePoints(Broken, combo)
    ensures CalculatePoints(Green, combo) - 10 == CalculatePoints(Spring, combo) - 50
                                              == CalculatePoints(Rocket, combo) - 100
                                              == CalculatePoints(Moving, combo) - 20
                                              == CalculatePoints(Breakable, combo) - 15
    ensures CalculatePoints(Green, 0) == 10 && CalculatePoints(Spring, 9) == 68
  {
  }

  /** A longer combo never earns fewer points, and earns strictly more until the cap. */
  lemma PointsGrowWithCombo(kind: PlatformType, c1: int, c2: int)
    requires c1 <= c2
    ensures CalculatePoints(kind, c1) <= CalculatePoints(kind, c2)
    ensures c1 < c2 && c1 < 25 ==> CalculatePoints(kind, c1) < CalculatePoints(kind, c2)
  {
  }
}
