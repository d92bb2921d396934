/** Shapes shared by the whole game: world-space vectors (three.js `Vector3`),
    box platforms, character presets and the persisted player-stats record. */
module Types {

  datatype Option<T> = None | Some(value: T)

  /** A point or displacement in world space. Components are exact reals:
      IEEE rounding is not modelled. */
  datatype Vec3 = Vec3(x: real, y: real, z: real)

  const Zero: Vec3 := Vec3(0.0, 0.0, 0.0)

  /** `length() > 0`: some component is non-zero. */
  predicate NonZero(v: Vec3) {
    v.x != 0.0 || v.y != 0.0 || v.z != 0.0
  }

  function Add(a: Vec3, b: Vec3): Vec3 {
    Vec3(a.x + b.x, a.y + b.y, a.z + b.z)
  }

  function Sub(a: Vec3, b: Vec3): Vec3 {
    Vec3(a.x - b.x, a.y - b.y, a.z - b.z)
  }

  function Scale(a: Vec3, k: real): Vec3 {
    Vec3(a.x * k, a.y * k, a.z * k)
  }

  function SqLength(a: Vec3): real {
    a.x * a.x + a.y * a.y + a.z * a.z
  }

  /** The square of `distanceTo`; comparing it with r*r avoids the square root. */
  function SqDistance(a: Vec3, b: Vec3): real {
    SqLength(Sub(a, b))
  }

  /** A static axis-aligned box: `position` is its centre, `size` its full extents. */
  datatype Platform = Platform(position: Vec3, size: Vec3, color: string, isNeon: bool)
  {
    function MinX(): real { position.x - size.x / 2.0 }
    function MaxX(): real { position.x + size.x / 2.0 }
    function MinZ(): real { position.z - size.z / 2.0 }
    function MaxZ(): real { position.z + size.z / 2.0 }
    /** Height of the top surface. */
    function Top(): real { position.y + size.y / 2.0 }
  }

  datatype Rarity = Common | Rare | Legendary

  datatype ModelType = Standard | Stealth | Heavy | Proto

  datatype Colors = Colors(primary: string, secondary: string, glow: string)

  datatype CharacterData = CharacterData(
    id: string,
    name: string,
    description: string,
    rarity: Rarity,
    modelType: ModelType,
    colors: Colors)

  /** The persisted record; numbers the game only adds to and compares are integers. */
  datatype PlayerStats = PlayerStats(
    credits: int,
    highestLevel: int,
    totalDeaths: int,
    gamesPlayed: int,
    lastLogin: string,
    inventory: seq<string>,
    equippedCharacterId: string)
}
