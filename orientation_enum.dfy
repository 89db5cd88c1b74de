/** The four display rotations and their integer codes. */
module OrientationEnum {

  import opened Wrappers

  datatype Rotation = Rotation0 | Rotation90 | Rotation180 | Rotation270

  /** getValue: the code of a rotation, in quarter turns. */
  function Value(r: Rotation): (v: int)
    ensures 0 <= v <= 3
  {
    match r
    case Rotation0 => 0
    case Rotation90 => 1
    case Rotation180 => 2
    case Rotation270 => 3
  }

  /** fromInteger: the rotation with that code, `None` (null) for any other integer. */
  function FromInteger(x: int): (r: Option<Rotation>)
    ensures r.Some? <==> 0 <= x <= 3
    ensures r.Some? ==> Value(r.value) == x
  {
    match x
    case 0 => Some(Rotation0)
    case 1 => Some(Rotation90)
    case 2 => Some(Rotation180)
    case 3 => Some(Rotation270)
    case _ => None
  }

  /** Decoding the code of a rotation gives that rotation back. */
  lemma ValueRoundTrip(r: Rotation)
    ensures FromInteger(Value(r)) == Some(r)
  {
  }

  /** The four codes are distinct. */
  lemma ValuesDistinct(a: Rotation, b: Rotation)
    ensures Value(a) == Value(b) <==> a == b
  {
  }

  /** A rotation of a quarter or three quarters of a turn holds the device on its side. */
  predicate Sideways(r: Rotation) {
    r == Rotation90 || r == Rotation270
  }
}
