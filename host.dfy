/** The host game's types and helpers that the overhaul reads and writes:
    vectors, rectangles, items, projectiles, gores, animation frames, sound
    styles, colours, the player object and the MathHelper arithmetic.
    Single-precision floats are modelled as `real`. */
module Host {

  datatype Option<T> = None | Some(value: T)

  /** Vector2 */
  datatype Vec2 = Vec2(x: real, y: real) {
    function Plus(o: Vec2): Vec2 { Vec2(x + o.x, y + o.y) }
    function Minus(o: Vec2): Vec2 { Vec2(x - o.x, y - o.y) }
    function Scaled(k: real): Vec2 { Vec2(x * k, y * k) }
  }

  const Zero: Vec2 := Vec2(0.0, 0.0)
  const UnitX: Vec2 := Vec2(1.0, 0.0)

  /** An axis-aligned integer rectangle (the host's Rectangle). */
  datatype Rect = Rect(x: int, y: int, width: int, height: int)

  /** The frames of the player sprite sheet that the melee pose uses. */
  datatype Frame = Use1 | Use2 | Use3 | Use4 | Walk5 | Walk8 | Walk13 | Jump

  /** A sound style: one of the host's numbered sounds, or a sound asset of the overhaul. */
  datatype SoundStyle = Legacy(soundType: int, style: int) | Asset(path: string)

  /** SoundID.Item5, the host's bow sound. */
  const Item5Sound: SoundStyle := Legacy(2, 5)

  datatype Color = Color(r: int, g: int, b: int, a: int)

  const Black: Color := Color(0, 0, 0, 255)
  const LightGray: Color := Color(211, 211, 211, 255)
  const Green: Color := Color(0, 128, 0, 255)
  const Yellow: Color := Color(255, 255, 0, 255)
  const Red: Color := Color(255, 0, 0, 255)

  /** The fields of an item that the overhaul consults. */
  datatype Item = Item(
    itemType: int,
    active: bool,
    width: int,
    height: int,
    scale: real,
    useAnimation: int,
    shoot: int,
    noMelee: bool,
    useAmmo: int,
    pick: int,
    axe: int,
    hammer: int,
    createTile: int,
    createWall: int,
    useSound: Option<SoundStyle>)

  /** A projectile; `whoAmI` is its slot in the world's projectile table and
      stands for the object's identity. `ai0` is `ai[0]`. */
  datatype Projectile = Projectile(whoAmI: int, active: bool, ai0: real)

  /** An entry of the world's gore table; `isOverhaul` says whether the entry
      is the overhaul's own gore class, the only one that carries `time` and a
      bounding box. */
  datatype Gore = Gore(isOverhaul: bool, active: bool, time: real, aabb: Rect)

  /** The player object: the fields the core reads, and the animation fields
      that the melee pose writes. `grappling` holds projectile ids of the
      player's hooks, a negative id ending the list. */
  class Player {
    var whoAmI: int
    var position: Vec2
    var center: Vec2
    var width: int
    var height: int
    var velocity: Vec2
    var oldVelocity: Vec2
    var direction: int
    var controlLeft: bool
    var controlRight: bool
    var armor: seq<Option<Item>>
    var extraAccessorySlots: int
    const grappling: array<int>
    var itemAnimation: int
    var itemAnimationMax: int
    var statLife: int
    var bodyFrame: Frame
    var legFrame: Frame
    var itemRotation: real
    var itemLocation: Vec2

    constructor (hooks: array<int>)
      ensures grappling == hooks
      ensures direction == 1 && armor == [] && itemAnimation == 0
    {
      grappling := hooks;
      direction := 1;
      armor := [];
      itemAnimation := 0;
    }
  }

  // MathHelper

  /** MathHelper.Pi, the single-precision value of pi, written out exactly. */
  const Pi: real := 3.1415927410125732421875
  const PiOver2: real := Pi / 2.0
  const PiOver4: real := Pi / 4.0
  const TwoPi: real := Pi * 2.0

  function Min(a: real, b: real): real { if a <= b then a else b }
  function Max(a: real, b: real): real { if a >= b then a else b }
  function Abs(a: real): real { if a < 0.0 then -a else a }

  /** MathHelper.Clamp: first caps at `max`, then raises to `min`. */
  function Clamp(value: real, min: real, max: real): (r: real)
    ensures min <= max ==> min <= r <= max
    ensures min <= value <= max ==> r == value
  {
    var capped := if value > max then max else value;
    if capped < min then min else capped
  }

  /** MathHelper.Lerp */
  function Lerp(a: real, b: real, t: real): real { a + (b - a) * t }

  /** Math.Sign on a float. */
  function Sign(x: real): int { if x > 0.0 then 1 else if x < 0.0 then -1 else 0 }

  /** Math.Round on a double: to the nearest integer, ties to the even one. */
  function RoundHalfEven(x: real): (n: int)
    ensures -0.5 <= n as real - x <= 0.5
    ensures (n as real - x == 0.5 || n as real - x == -0.5) ==> n % 2 == 0
  {
    var f := x.Floor;
    var d := x - f as real;
    if d < 0.5 then f
    else if d > 0.5 then f + 1
    else if f % 2 == 0 then f
    else f + 1
  }

  /** The two properties of RoundHalfEven determine its result. */
  lemma RoundHalfEvenUnique(x: real, n: int)
    requires -0.5 <= n as real - x <= 0.5
    requires (n as real - x == 0.5 || n as real - x == -0.5) ==> n % 2 == 0
    ensures n == RoundHalfEven(x)
  {
  }

  lemma RoundHalfEvenExamples()
    ensures RoundHalfEven(2.5) == 2 && RoundHalfEven(3.5) == 4
    ensures RoundHalfEven(-2.5) == -2 && RoundHalfEven(2.4) == 2 && RoundHalfEven(2.6) == 3
  {
  }
}
