/** The entities of one DoodleJumpGame: the player, the run state (`localState`),
    platforms, items and particles, with the fixed canvas and sprite sizes. */
module Entities {

  // Canvas size set by init() and the sizes table of the constructor.
  const CanvasWidth: real := 400.0
  const CanvasHeight: real := 600.0
  const PlayerWidth: real := 46.0
  const PlayerHeight: real := 46.0
  const PlatformWidth: real := 70.0
  const PlatformHeight: real := 18.0
  // Every item, whatever its type, is created with the coin size.
  const ItemSize: real := 20.0

  /** The platform type tag. "rocket" has handling code but no generator produces it;
      "broken" is what a breakable platform becomes at health <= 0. */
  datatype PlatformType = Green | Blue | Spring | Moving | Breakable | Broken | Rocket

  /** width and height are always PlatformWidth x PlatformHeight. */
  datatype Platform = Platform(x: real, y: real, kind: PlatformType, health: int, vx: real)

  datatype ItemType = Coin | Shield | Magnet

  /** The animation phase is not kept: its only use is the vertical bob, which
      the tick takes as an input. width and height are always ItemSize. */
  datatype Item = Item(x: real, y: real, kind: ItemType, collected: bool)

  /** The player record; width and height are always PlayerWidth x PlayerHeight. */
  datatype Player = Player(x: real, y: real, vx: real, vy: real, jumping: bool,
                           direction: int, isRocket: bool, hasShield: bool)

  /** The texts that showAchievement pushes onto localState.achievements. */
  datatype Achievement =
    | ComboFive | ComboTen | ShieldOn | MagnetOn | RocketOn | ShieldSaved
    | ThousandPoints | TenCoins

  /** localState without the network flag `connected`. */
  datatype LocalState = LocalState(
    score: int, coins: int, gameOver: bool, highestPoint: int,
    rocketActive: bool, rocketTime: int,
    shieldActive: bool, shieldTime: int,
    magnetActive: bool, magnetTime: int,
    combo: int, achievements: seq<Achievement>)

  /** A burst particle from createParticles, or a score text from showScorePopup. */
  datatype Particle =
    | Spark(x: real, y: real, vx: real, vy: real, life: int, color: string, size: real)
    | Popup(x: real, y: real, vx: real, vy: real, life: int, points: int)

  /** A request to create particles: createParticles(x, y, count, color) or
      showScorePopup(x, y, points). */
  datatype Effect =
    | Burst(x: real, y: real, count: nat, color: string)
    | ScoreText(x: real, y: real, points: int)

  /** An axis-aligned rectangle, as checkCollision sees its two arguments. */
  datatype Box = Box(x: real, y: real, width: real, height: real)

  function PlayerBox(p: Player): Box { Box(p.x, p.y, PlayerWidth, PlayerHeight) }

  function ItemBox(it: Item): Box { Box(it.x, it.y, ItemSize, ItemSize) }

  /** Every value of the Math.random stream lies in [0, 1). */
  ghost predicate UnitDraws(random: nat -> real) {
    forall n: nat :: 0.0 <= Draw(random, n) < 1.0
  }

  /** The n-th value of the Math.random stream. */
  function Draw(random: nat -> real, n: nat): real { random(n) }

  function Abs(v: real): real { if v < 0.0 then -v else v }

  /** Replacing the first element of the unvisited part of a list. */
  lemma ReplaceNext<T>(done: seq<T>, rest: seq<T>, x: T)
    requires |rest| > 0
    ensures (done + rest)[|done| := x] == (done + [x]) + rest[1..]
  {
  }

  lemma ConcatAssoc<T>(a: seq<T>, b: seq<T>, c: seq<T>)
    ensures (a + b) + c == a + (b + c)
  {
  }
}
