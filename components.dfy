/**
 * The component records of the entity-component engine (src/games/components.ts).
 * Every record is one constructor of `Component`; `Tag()` plays the part of
 * `constructor.name`, the key under which the store files a component.
 * Fields that the systems use without declaring them (`Movement.isMoving`,
 * `Tank.isShooting`) are ordinary fields that start out `false`.
 */
module Components {

  datatype Direction = Up | Down | Left | Right

  datatype WallType = Brick | Steel | Water | Bush

  /** Powerup kinds "helmet", "star" and "tank" (an extra life). */
  datatype PowerupType = Helmet | Star | ExtraLife

  /** The type names the store uses as keys. */
  datatype Tag =
    | PositionTag | LevelTag | PlayerTag | MovementTag | DirectionChangeTag
    | HealthTag | ScoreTag | BulletTag | TankTag | PowerupTag | InvincibleTag
    | ExplosionTag | WallTag

  datatype Component =
    | Position(x: real, y: real, width: real, height: real)
    | Level(index: int)
    | Player(id: nat, index: int)
    | Movement(speed: real, direction: Direction, isMoving: bool := false)
    | DirectionChange(changeCooldown: real, lastChange: real := 0.0)
    | Health(current: int, max: int)
    | Score(value: int)
    | Bullet(ownerId: nat, damage: int := 1)
    | Tank(color: string, lastShot: real, shootCooldown: real, isShooting: bool := false)
    | Powerup(powerupType: PowerupType, duration: real, spawnTime: real)
    | Invincible(duration: real, spawnTime: real)
    | Explosion(frame: int, maxFrames: int, frameTime: real, lastFrameUpdate: real, ownerId: nat)
    | Wall(wallType: WallType)
  {
    /** The class name of the record. */
    function Tag(): Tag {
      match this
      case Position(_, _, _, _) => PositionTag
      case Level(_) => LevelTag
      case Player(_, _) => PlayerTag
      case Movement(_, _, _) => MovementTag
      case DirectionChange(_, _) => DirectionChangeTag
      case Health(_, _) => HealthTag
      case Score(_) => ScoreTag
      case Bullet(_, _) => BulletTag
      case Tank(_, _, _, _) => TankTag
      case Powerup(_, _, _) => PowerupTag
      case Invincible(_, _) => InvincibleTag
      case Explosion(_, _, _, _, _) => ExplosionTag
      case Wall(_) => WallTag
    }

    /** `Health.isDead()`. */
    predicate IsDead()
      requires Health?
    {
      current <= 0
    }

    /** `Health.hit(value)`: no clamping, so `current` may become negative. */
    function Hit(value: int): (h: Component)
      requires Health?
      ensures h.Health? && h.current == current - value && h.max == max
    {
      this.(current := current - value)
    }

    /** `Score.add(value)`. */
    function Add(value: int): (s: Component)
      requires Score?
      ensures s.Score? && s.value == this.value + value
    {
      this.(value := this.value + value)
    }

    /** `Level.increment()`. */
    function Increment(): (l: Component)
      requires Level?
      ensures l.Level? && l.index == index + 1
    {
      Level(index + 1)
    }
  }

  /** A component that is a box in world pixel space. */
  type Box = c: Component | c.Position? witness Position(0.0, 0.0, 0.0, 0.0)

  /** A record keeps its tag under every mutator. */
  lemma MutatorsKeepTag(c: Component, v: int)
    ensures c.Health? ==> c.Hit(v).Tag() == HealthTag
    ensures c.Score? ==> c.Add(v).Tag() == ScoreTag
    ensures c.Level? ==> c.Increment().Tag() == LevelTag
  {
  }

  /** After a hit of `v` the record is dead exactly when `v` used up what was left. */
  lemma HitKills(h: Component, v: int)
    requires h.Health?
    ensures h.Hit(v).IsDead() <==> h.current <= v
    ensures h.Hit(v).max == h.max
  {
  }

  /** Omitted constructor arguments take the source's defaults. */
  lemma Defaults(cooldown: real, owner: nat, speed: real, d: Direction, color: string, last: real, shoot: real)
    ensures DirectionChange(cooldown).lastChange == 0.0
    ensures Bullet(owner).damage == 1
    ensures !Movement(speed, d).isMoving
    ensures !Tank(color, last, shoot).isShooting
  {
  }
}
