/**
 * The host engine's types that the editors read and write. Their internals belong
 * to the engine; only what the tool's own logic observes is kept.
 */
module Engine {
  import opened Wrappers

  /** EnumTransformFunction, in the order of the editors' combo box. */
  datatype TransformFunction =
    | Identical | Linear | LinearNullify | LinearReduce | LinearIncrease | Quadratic
    | InverseLinear | Root | Sinus | ClampedPositiveSinus | Cosinus | Smoothstep

  /** An evolving value: a transform function and its factor (a float, kept as a real). */
  datatype EvolvingNatFloat = EvolvingNatFloat(transform: TransformFunction, factor: real)

  /** The value the engine's parameterless EvolvingNatFloat constructor produces. */
  const DefaultEvolving: EvolvingNatFloat := EvolvingNatFloat(Identical, 0.0)

  /** The value the nullable editors create when a field is switched on with nothing saved. */
  const LinearZero: EvolvingNatFloat := EvolvingNatFloat(Linear, 0.0)

  /** A per-axis triple: the X, Y and Z entries of a three-element array. */
  datatype Axes<T> = Axes(x: T, y: T, z: T)

  /** The three entries created by "add velocity evolve". */
  const DefaultVelocityEvolve: Axes<EvolvingNatFloat> := Axes(DefaultEvolving, DefaultEvolving, DefaultEvolving)

  /** Four floats of an HSVA colour (average or variance part). */
  datatype Hsva = Hsva(h: real, s: real, v: real, a: real)

  /** The decoded fields of the packed vertex-flags word. */
  datatype VertexFlags = VertexFlags(
    glowLevel: int, reflective: bool, zOffset: int, lod0: bool,
    windMode: int, windData: int, normal: int)

  /**
   * The contents of one AdvancedParticleProperties record that the editors' logic
   * touches. Everything edited only through float widgets is folded into `others`.
   */
  datatype Payload = Payload(
    colorByBlock: bool,
    hsvaColor: Hsva,
    hsvaVariance: Hsva,
    opacityEvolve: Option<EvolvingNatFloat>,
    redEvolve: Option<EvolvingNatFloat>,
    greenEvolve: Option<EvolvingNatFloat>,
    blueEvolve: Option<EvolvingNatFloat>,
    sizeEvolve: Option<EvolvingNatFloat>,
    velocityEvolve: Option<Axes<EvolvingNatFloat>>,
    vertexFlags: VertexFlags,
    others: int)

  /** The record a new AdvancedParticleProperties() holds. */
  const DefaultPayload: Payload := Payload(
    false, Hsva(0.0, 0.0, 0.0, 0.0), Hsva(0.0, 0.0, 0.0, 0.0),
    None, None, None, None, None, None, VertexFlags(0, false, 0, false, 0, 0, 0), 0)

  /** GetHashCode() of a record: an identity-based number the host chooses. */
  type HashCode = AdvancedParticleProperties -> int

  /** The engine's particle-effect record: a reference type whose payload the editors overwrite. */
  class AdvancedParticleProperties {
    var payload: Payload

    constructor ()
      ensures payload == DefaultPayload
    {
      payload := DefaultPayload;
    }

    constructor FromPayload(p: Payload)
      ensures payload == p
    {
      payload := p;
    }

    /** Clone(): a new record with an equal payload. */
    method Clone() returns (c: AdvancedParticleProperties)
      ensures fresh(c) && c.payload == payload
    {
      c := new AdvancedParticleProperties.FromPayload(payload);
    }
  }

  /** A block type; its particle effects may be null, and so may each entry. */
  class Block {
    const code: string
    var particleProperties: array?<AdvancedParticleProperties?>

    constructor (code: string, effects: array?<AdvancedParticleProperties?>)
      ensures this.code == code && particleProperties == effects
    {
      this.code := code;
      particleProperties := effects;
    }
  }

  /** The effects of a block as a sequence; a null array reads as empty. */
  function Effects(b: Block): (s: seq<AdvancedParticleProperties?>)
    reads b, b.particleProperties
    ensures b.particleProperties != null ==> s == b.particleProperties[..]
    ensures b.particleProperties == null ==> s == []
  {
    if b.particleProperties == null then [] else b.particleProperties[..]
  }

  /** A new array holding the given effects (ToArray() of a LINQ sequence). */
  method NewEffectArray(s: seq<AdvancedParticleProperties?>) returns (a: array<AdvancedParticleProperties?>)
    ensures fresh(a) && a[..] == s
  {
    a := new AdvancedParticleProperties?[|s|](i requires 0 <= i < |s| => s[i]);
  }

  class Entity {
    constructor () { }
  }

  class BlockEntity {
    constructor () { }
  }

  /**
   * An inventory slot; `stackBlock` is the block of its item stack, null when empty or an
   * item; `itemShape` is the shape path of the stack's item, None when there is no item
   * with a shape.
   */
  class ItemSlot {
    var stackBlock: Block?
    var itemShape: Option<string>

    constructor (b: Block?, shape: Option<string>)
      ensures stackBlock == b && itemShape == shape
    {
      stackBlock := b;
      itemShape := shape;
    }
  }

  /** What the player currently targets, as the host's world and player state report it. */
  datatype Hover = Hover(
    block: Block?, entity: Entity?, slot: ItemSlot?, blockEntityAtTarget: BlockEntity?)

  /** C#'s (byte) cast of an int: the low eight bits. */
  function ToByte(x: int): (r: int)
    ensures 0 <= r < 256
    ensures (x - r) % 256 == 0
    ensures 0 <= x < 256 ==> r == x
  {
    x % 256
  }

  const ShortMin: int := -32768
  const ShortMax: int := 32767

  /** (short)GameMath.Clamp(n, short.MinValue, short.MaxValue). */
  function ClampToShort(n: int): (r: int)
    ensures ShortMin <= r <= ShortMax
    ensures ShortMin <= n <= ShortMax ==> r == n
    ensures n < ShortMin ==> r == ShortMin
    ensures n > ShortMax ==> r == ShortMax
  {
    if n < ShortMin then ShortMin else if n > ShortMax then ShortMax else n
  }

  /** Clamping keeps order and is idempotent: a stored normal is stored again unchanged. */
  lemma ClampToShortMonotone(a: int, b: int)
    requires a <= b
    ensures ClampToShort(a) <= ClampToShort(b)
    ensures ClampToShort(ClampToShort(a)) == ClampToShort(a)
  {
  }
}
