/** The categorical feature sets that the board-suitability and interaction
    modules consume. The source passes them around as string tags; here each
    tag set is a closed enumeration. */
module Features {

  import opened Js

  /** Wave size on the ten-step body scale, smallest first
      ('flat', 'ankle', ..., 'double-overhead'). */
  datatype Size = Flat | Ankle | Knee | Thigh | Waist | Chest | Shoulder | Head | Overhead | DoubleOverhead
  {
    /** Position on the scale: 0 for flat up to 9 for double overhead. */
    function Step(): (n: nat)
      ensures n < 10
      ensures this == Flat <==> n == 0
      ensures this == DoubleOverhead <==> n == 9
    {
      match this
      case Flat => 0
      case Ankle => 1
      case Knee => 2
      case Thigh => 3
      case Waist => 4
      case Chest => 5
      case Shoulder => 6
      case Head => 7
      case Overhead => 8
      case DoubleOverhead => 9
    }
  }

  /** Swell class by period ('wind-swell', 'mixed', 'ground-swell',
      'long-period'), shortest period first. */
  datatype SwellClass = WindSwell | MixedSwell | GroundSwell | LongPeriod
  {
    function Step(): (n: nat)
      ensures n < 4
    {
      match this
      case WindSwell => 0
      case MixedSwell => 1
      case GroundSwell => 2
      case LongPeriod => 3
    }

    /** Ground swell or long-period swell: the classes the rules treat as
        well-organised. */
    predicate IsGroomed()
    {
      this == GroundSwell || this == LongPeriod
    }
  }

  /** Wave power tag ('weak', 'moderate', 'solid', 'heavy', 'dangerous'). */
  datatype Power = Weak | Moderate | Solid | Heavy | Dangerous

  /** Wind texture of the wave face ('glassy', 'clean', 'textured', 'choppy',
      'blown-out'). */
  datatype Texture = Glassy | Clean | Textured | Choppy | BlownOut
  {
    /** Glassy or clean: the smooth textures. */
    predicate IsSmooth()
    {
      this == Glassy || this == Clean
    }
  }

  /** Wind strength tag ('calm', 'light', 'moderate', 'strong', 'dangerous'). */
  datatype Strength = Calm | LightWind | ModerateWind | StrongWind | DangerousWind

  /** Impact tag of an interaction or of the wind ('positive', 'negative',
      'neutral'). */
  datatype Impact = Positive | Negative | Neutral

  /** Safety level. The source only ever tests for 'danger' and 'warning';
      `Safe` stands for every other value. */
  datatype Safety = Safe | Warning | Danger

  datatype WaveFeatures = WaveFeatures(power: Power, size: Size, period: SwellClass)

  /** `impact` is optional in the source; a missing impact is read as
      'neutral' where it is used. */
  datatype WindFeatures = WindFeatures(texture: Texture, strength: Strength, impact: Option<Impact>)
}
