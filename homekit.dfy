/**
 * The accessory library's characteristic value as the setters and getters see it:
 * a format tag and the payload fields the firmware reads. Which payload field is
 * meaningful is decided by the tag.
 */
module HomeKit {

  datatype Format =
    | BoolFormat | UInt8Format | UInt16Format | UInt32Format | UInt64Format
    | IntFormat | FloatFormat | StringFormat | TlvFormat | DataFormat

  datatype Value = Value(format: Format, boolValue: bool, intValue: int, floatValue: real)

  /** HOMEKIT_BOOL */
  function BoolValue(b: bool): (v: Value)
    ensures v.format == BoolFormat && v.boolValue == b
  {
    Value(BoolFormat, b, 0, 0.0)
  }

  /** HOMEKIT_INT */
  function IntValue(n: int): (v: Value)
    ensures v.format == IntFormat && v.intValue == n
  {
    Value(IntFormat, false, n, 0.0)
  }

  /** HOMEKIT_FLOAT */
  function FloatValue(x: real): (v: Value)
    ensures v.format == FloatFormat && v.floatValue == x
  {
    Value(FloatFormat, false, 0, x)
  }

  /** Two values carry the same format and the same payload for that format. */
  predicate SameReading(a: Value, b: Value)
  {
    a.format == b.format &&
    match a.format
    case BoolFormat => a.boolValue == b.boolValue
    case IntFormat => a.intValue == b.intValue
    case FloatFormat => a.floatValue == b.floatValue
    case _ => false
  }
}
