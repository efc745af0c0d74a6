/** The wide API: java.util.logging levels and the opaque resource bundle. */
module Jul {
  import opened Optional

  /** The nine standard `java.util.logging.Level` constants. */
  datatype Level = Off | Severe | Warning | Info | Config | Fine | Finer | Finest | All
  {
    /** The seven levels a message can be logged at; OFF and ALL are bounds. */
    predicate IsActionable() {
      this != Off && this != All
    }
  }

  type Actionable = l: Level | l.IsActionable() witness Severe

  /** `Level.intValue()`: OFF is Integer.MAX_VALUE and ALL is Integer.MIN_VALUE. */
  function IntValue(l: Level): int {
    match l
    case Off => 0x7FFF_FFFF
    case Severe => 1000
    case Warning => 900
    case Info => 800
    case Config => 700
    case Fine => 500
    case Finer => 400
    case Finest => 300
    case All => -0x8000_0000
  }

  /** A `java.util.ResourceBundle`, known only by its identity. */
  type BundleId = nat

  /**
   * The bundle argument of the `logrb` family: either a bundle name
   * (`String`) or a bundle object (`ResourceBundle`), each possibly null.
   */
  datatype Bundle = BundleName(name: Option<string>) | BundleObject(bundle: Option<BundleId>)
}
