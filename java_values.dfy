/**
 * The runtime values the ONNX output normaliser inspects with `instanceof`.
 * A `Raw` is what `OnnxValue.getValue()` hands back: its Java runtime class is one
 * of the constructors below (Java classes are disjoint, so exactly one applies).
 */
module JavaValues {

  /** A 64-bit Java `long`. */
  newtype int64 = x: int | -0x8000_0000_0000_0000 <= x < 0x8000_0000_0000_0000

  /** A Java `float`: a number or the NaN tag. IEEE rounding is not modelled. */
  datatype Float = FloatValue(value: real) | FloatNaN

  /** A Java `double`: a number or the NaN tag. */
  datatype Double = DoubleValue(value: real) | DoubleNaN

  /**
   * The two numeric conversions the normaliser performs, kept abstract:
   * the cast `(float) d` and `Number.floatValue()` of an integral box.
   */
  datatype Conversions = Conversions(doubleToFloat: Double -> Float, integralToFloat: int -> Float)

  /** A boxed `java.lang.Number`. */
  datatype Number = BoxedFloat(f: Float) | BoxedDouble(d: Double) | BoxedIntegral(n: int)

  /**
   * A map key. Java's `Map.get` compares boxed keys with `equals`, so an `Integer` 0,
   * a `Long` 0 and the `String` "0" are three different keys.
   */
  datatype Key = IntegerKey(i: int) | LongKey(l: int) | StringKey(s: string)

  datatype Raw =
    | OnnxMapWrap(inner: Raw)                 // an ai.onnxruntime.OnnxMap
    | FloatMatrix(rows: seq<seq<Float>>)      // float[][]
    | DoubleMatrix(drows: seq<seq<Double>>)   // double[][]
    | LongArray(longs: seq<int64>)            // long[]
    | FloatArray(floats: seq<Float>)          // float[]
    | DoubleArray(doubles: seq<Double>)       // double[]
    | JavaMap(entries: map<Key, Raw>)         // a java.util.Map
    | JavaList(items: seq<Raw>)               // a java.util.List
    | Boxed(number: Number)                   // a java.lang.Number
    | Text(text: string)                      // a java.lang.String
    | OtherObject                             // any other class
    | Null                                    // the null reference

  /** `Number.floatValue()`. */
  function FloatValueOf(n: Number, conv: Conversions): Float
  {
    match n
    case BoxedFloat(f) => f
    case BoxedDouble(d) => conv.doubleToFloat(d)
    case BoxedIntegral(k) => conv.integralToFloat(k)
  }

  /** `Map.get`: the value stored under `k`, or null when there is none. */
  function Get(m: map<Key, Raw>, k: Key): Raw
  {
    if k in m then m[k] else Null
  }
}
