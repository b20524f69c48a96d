/**
 * The ONNX backend's output normaliser: choose the label and probability outputs,
 * read the label, and turn a probability value of unknown runtime shape into a
 * probability vector.
 */
module PenguinOnnx {
  import opened Wrappers
  import opened JavaValues
  import opened OutputNames

  // ---------------------------------------------------------------------------
  // Reference definition of the probability vector
  // ---------------------------------------------------------------------------

  /** The recognised probability shapes, in the order the if-chain tries them. */
  datatype ProbShape =
    | FloatRow(row: seq<Float>)              // row 0 of a float[][], or a list's first float[]
    | DoubleRow(drow: seq<Double>)           // row 0 of a double[][], or a list's first double[]
    | ClassIndexMap(entries: map<Key, Raw>)  // a Map, or a list's first Map
    | Unrecognized

  /** `OnnxMap.getValue()` applied at most once. */
  function Unwrap(v: Raw): Raw
  {
    if v.OnnxMapWrap? then v.inner else v
  }

  /** The first matching rule of the if-chain, as an explicit classification. */
  function Classify(v: Raw): ProbShape
  {
    match v
    case FloatMatrix(rows) => if |rows| > 0 then FloatRow(rows[0]) else Unrecognized
    case DoubleMatrix(rows) => if |rows| > 0 then DoubleRow(rows[0]) else Unrecognized
    case JavaMap(m) => ClassIndexMap(m)
    case JavaList(items) =>
      if |items| == 0 then Unrecognized
      else (match items[0]
            case JavaMap(m) => ClassIndexMap(m)
            case FloatArray(fa) => FloatRow(fa)
            case DoubleArray(da) => DoubleRow(da)
            case _ => Unrecognized)
    case _ => Unrecognized
  }

  /** Element-wise `(float)` narrowing of a double row. */
  function Narrowed(src: seq<Double>, conv: Conversions): seq<Float>
  {
    if src == [] then [] else [conv.doubleToFloat(src[0])] + Narrowed(src[1..], conv)
  }

  /** The digit string "0" or "1" of a class index. */
  function ClassDigit(c: nat): string
    requires c < 2
  {
    if c == 0 then "0" else "1"
  }

  /** `map.get(c) != null ? map.get(c) : map.get("c")`, with `c` boxed as an Integer. */
  function ClassEntry(m: map<Key, Raw>, c: nat): Raw
    requires c < 2
  {
    if !Get(m, IntegerKey(c)).Null? then Get(m, IntegerKey(c)) else Get(m, StringKey(ClassDigit(c)))
  }

  /** `(v instanceof Number n) ? n.floatValue() : Float.NaN`. */
  function ProbOf(v: Raw, conv: Conversions): Float
  {
    if v.Boxed? then FloatValueOf(v.number, conv) else FloatNaN
  }

  function ClassMapVector(m: map<Key, Raw>, conv: Conversions): seq<Float>
  {
    [ProbOf(ClassEntry(m, 0), conv), ProbOf(ClassEntry(m, 1), conv)]
  }

  function ShapeVector(s: ProbShape, conv: Conversions): seq<Float>
  {
    match s
    case FloatRow(row) => row
    case DoubleRow(row) => Narrowed(row, conv)
    case ClassIndexMap(m) => ClassMapVector(m, conv)
    case Unrecognized => []
  }

  /** The probability vector the normaliser produces for the raw probability value `v`. */
  function ProbVector(v: Raw, conv: Conversions): seq<Float>
  {
    ShapeVector(Classify(Unwrap(v)), conv)
  }

  // ---------------------------------------------------------------------------
  // Properties of the reference definition
  // ---------------------------------------------------------------------------

  lemma {:induction false} NarrowedAt(src: seq<Double>, conv: Conversions)
    ensures |Narrowed(src, conv)| == |src|
    ensures forall i :: 0 <= i < |src| ==> Narrowed(src, conv)[i] == conv.doubleToFloat(src[i])
  {
    if src != [] {
      NarrowedAt(src[1..], conv);
    }
  }

  /** An OnnxMap is unwrapped once; what it wraps is classified as if it had come bare. */
  lemma UnwrapOnce(v: Raw, conv: Conversions)
    requires !v.OnnxMapWrap?
    ensures ProbVector(OnnxMapWrap(v), conv) == ProbVector(v, conv)
  {
  }

  /** A second, nested OnnxMap is not unwrapped again and is not a recognised shape. */
  lemma NestedWrapNotUnwrapped(v: Raw, conv: Conversions)
    ensures ProbVector(OnnxMapWrap(OnnxMapWrap(v)), conv) == []
  {
  }

  /** A float matrix with at least one row yields row 0 unchanged. */
  lemma FloatMatrixRule(rows: seq<seq<Float>>, conv: Conversions)
    requires |rows| > 0
    ensures ProbVector(FloatMatrix(rows), conv) == rows[0]
  {
  }

  /** A double matrix with at least one row yields row 0 narrowed element by element. */
  lemma DoubleMatrixRule(rows: seq<seq<Double>>, conv: Conversions)
    requires |rows| > 0
    ensures |ProbVector(DoubleMatrix(rows), conv)| == |rows[0]|
    ensures forall i :: 0 <= i < |rows[0]| ==>
      ProbVector(DoubleMatrix(rows), conv)[i] == conv.doubleToFloat(rows[0][i])
  {
    NarrowedAt(rows[0], conv);
  }

  /**
   * A map always yields two entries. Position c uses the Integer key c when its value
   * is not null and the String key "c" otherwise; a Number gives its floatValue and
   * anything else (a missing entry included) gives NaN at that position only.
   */
  lemma MapRule(m: map<Key, Raw>, conv: Conversions, c: nat)
    requires c < 2
    ensures |ProbVector(JavaMap(m), conv)| == 2
    ensures IntegerKey(c) in m && m[IntegerKey(c)].Boxed? ==>
      ProbVector(JavaMap(m), conv)[c] == FloatValueOf(m[IntegerKey(c)].number, conv)
    ensures IntegerKey(c) in m && !m[IntegerKey(c)].Boxed? && !m[IntegerKey(c)].Null? ==>
      ProbVector(JavaMap(m), conv)[c] == FloatNaN
    ensures ((IntegerKey(c) !in m || m[IntegerKey(c)].Null?) && StringKey(ClassDigit(c)) in m
             && m[StringKey(ClassDigit(c))].Boxed?) ==>
      ProbVector(JavaMap(m), conv)[c] == FloatValueOf(m[StringKey(ClassDigit(c))].number, conv)
    ensures ((IntegerKey(c) !in m || m[IntegerKey(c)].Null?) &&
             (StringKey(ClassDigit(c)) !in m || !m[StringKey(ClassDigit(c))].Boxed?)) ==>
      ProbVector(JavaMap(m), conv)[c] == FloatNaN
  {
  }

  /** Map keys other than Integer 0/1 and String "0"/"1" never influence the vector. */
  lemma MapReadsOnlyClassKeys(m: map<Key, Raw>, m': map<Key, Raw>, conv: Conversions)
    requires forall k :: k in {IntegerKey(0), IntegerKey(1), StringKey("0"), StringKey("1")} ==>
      Get(m, k) == Get(m', k)
    ensures ProbVector(JavaMap(m), conv) == ProbVector(JavaMap(m'), conv)
  {
    assert ClassDigit(0) == "0" && ClassDigit(1) == "1";
    assert forall c: nat :: c < 2 ==> ClassEntry(m, c) == ClassEntry(m', c);
  }

  /** A map keyed by Long values (not Integer, not String) yields two NaNs. */
  lemma LongKeyedMapIsNaN(m: map<Key, Raw>, conv: Conversions)
    requires forall k :: k in m ==> k.LongKey?
    ensures ProbVector(JavaMap(m), conv) == [FloatNaN, FloatNaN]
  {
    assert IntegerKey(0) !in m && IntegerKey(1) !in m;
    assert StringKey("0") !in m && StringKey("1") !in m;
  }

  /** Of a non-empty list only element 0 is inspected. */
  lemma ListUsesFirstOnly(first: Raw, rest: seq<Raw>, rest': seq<Raw>, conv: Conversions)
    ensures ProbVector(JavaList([first] + rest), conv) == ProbVector(JavaList([first] + rest'), conv)
  {
  }

  /**
   * A list whose first element is a map gives the map rule's result; a float
   * array is returned as it is; a double array is narrowed with its length kept.
   */
  lemma ListRule(items: seq<Raw>, conv: Conversions)
    requires |items| > 0
    ensures items[0].JavaMap? ==> ProbVector(JavaList(items), conv) == ProbVector(items[0], conv)
    ensures items[0].FloatArray? ==> ProbVector(JavaList(items), conv) == items[0].floats
    ensures items[0].DoubleArray? ==>
      |ProbVector(JavaList(items), conv)| == |items[0].doubles| &&
      forall i :: 0 <= i < |items[0].doubles| ==>
        ProbVector(JavaList(items), conv)[i] == conv.doubleToFloat(items[0].doubles[i])
  {
    if items[0].DoubleArray? {
      NarrowedAt(items[0].doubles, conv);
    }
  }

  /** The shapes no rule accepts yield the empty vector. */
  lemma FallThrough(v: Raw, conv: Conversions)
    requires || (v.FloatMatrix? && v.rows == [])
             || (v.DoubleMatrix? && v.drows == [])
             || (v.JavaList? && (v.items == [] ||
                   !(v.items[0].JavaMap? || v.items[0].FloatArray? || v.items[0].DoubleArray?)))
             || v.LongArray? || v.FloatArray? || v.DoubleArray? || v.Boxed? || v.Text?
             || v.OtherObject? || v.Null?
    ensures ProbVector(v, conv) == []
    ensures ProbVector(OnnxMapWrap(v), conv) == []
  {
  }

  /** Conversely, a non-empty vector comes only from one of the recognised shapes. */
  lemma NonEmptyMeansRecognized(v: Raw, conv: Conversions)
    requires ProbVector(v, conv) != []
    ensures var u := Unwrap(v);
      || (u.FloatMatrix? && u.rows != [])
      || (u.DoubleMatrix? && u.drows != [])
      || u.JavaMap?
      || (u.JavaList? && u.items != [] &&
          (u.items[0].JavaMap? || u.items[0].FloatArray? || u.items[0].DoubleArray?))
  {
  }

  // ---------------------------------------------------------------------------
  // The imperative normaliser
  // ---------------------------------------------------------------------------

  /** `new float[src.length]` filled by `probArray[i] = (float) src[i]`. */
  method NarrowRow(src: seq<Double>, conv: Conversions) returns (a: array<Float>)
    ensures fresh(a)
    ensures a[..] == Narrowed(src, conv)
  {
    a := new Float[|src|];
    for i := 0 to |src|
      invariant forall k :: 0 <= k < i ==> a[k] == conv.doubleToFloat(src[k])
    {
      a[i] := conv.doubleToFloat(src[i]);
    }
    NarrowedAt(src, conv);
  }

  /** `new float[2]` filled from a class-index map. */
  method FromClassMap(m: map<Key, Raw>, conv: Conversions) returns (a: array<Float>)
    ensures fresh(a)
    ensures a[..] == ClassMapVector(m, conv)
  {
    a := new Float[2];
    var v0 := if !Get(m, IntegerKey(0)).Null? then Get(m, IntegerKey(0)) else Get(m, StringKey("0"));
    var v1 := if !Get(m, IntegerKey(1)).Null? then Get(m, IntegerKey(1)) else Get(m, StringKey("1"));
    a[0] := if v0.Boxed? then FloatValueOf(v0.number, conv) else FloatNaN;
    a[1] := if v1.Boxed? then FloatValueOf(v1.number, conv) else FloatNaN;
  }

  /** The if-chain over the raw probability value, with `probArray` starting empty. */
  method NormalizeProbabilities(value: Raw, conv: Conversions) returns (probArray: array<Float>)
    ensures probArray[..] == ProbVector(value, conv)
  {
    probArray := new Float[0];
    var rawProb := value;
    if rawProb.OnnxMapWrap? {
      rawProb := rawProb.inner;
    }
    if rawProb.FloatMatrix? && |rawProb.rows| > 0 {
      var row := rawProb.rows[0];
      probArray := new Float[|row|](i requires 0 <= i < |row| => row[i]);
    } else if rawProb.DoubleMatrix? && |rawProb.drows| > 0 {
      probArray := NarrowRow(rawProb.drows[0], conv);
    } else if rawProb.JavaMap? {
      probArray := FromClassMap(rawProb.entries, conv);
    } else if rawProb.JavaList? && |rawProb.items| > 0 {
      var first := rawProb.items[0];
      if first.JavaMap? {
        probArray := FromClassMap(first.entries, conv);
      } else if first.FloatArray? {
        var fa := first.floats;
        probArray := new Float[|fa|](i requires 0 <= i < |fa| => fa[i]);
      } else if first.DoubleArray? {
        probArray := NarrowRow(first.doubles, conv);
      }
    }
  }

  // ---------------------------------------------------------------------------
  // The whole read-out: label plus probabilities
  // ---------------------------------------------------------------------------

  /** The exceptions `runModel` can raise while reading its outputs. */
  datatype OnnxError =
    | NoOutputNames                  // NoSuchElementException from iterator().next() on an empty name set
    | MissingOutput(name: string)    // Optional.get() on an absent output
    | LabelNotLongArray(name: string) // the (long[]) cast fails
    | EmptyLabelArray(name: string)  // index 0 of an empty long[]

  /** The canonical prediction: the label and, when a probability output exists, its vector. */
  datatype Prediction = Prediction(predicted: int64, probabilities: seq<Float>, hasProbabilities: bool)

  /** `((long[]) result.get(name).get().getValue())[0]`. */
  function ReadLabel(results: map<string, Raw>, name: string): (r: Result<int64, OnnxError>)
    ensures r.Success? <==> name in results && results[name].LongArray? && |results[name].longs| > 0
    ensures r.Success? ==> r.value == results[name].longs[0]
  {
    if name !in results then Failure(MissingOutput(name))
    else if !results[name].LongArray? then Failure(LabelNotLongArray(name))
    else if |results[name].longs| == 0 then Failure(EmptyLabelArray(name))
    else Success(results[name].longs[0])
  }

  /** What `runModel` computes from the declared output names and the session result. */
  function Predict(outputNames: seq<string>, results: map<string, Raw>, conv: Conversions)
    : Result<Prediction, OnnxError>
  {
    match LabelOutputName(outputNames)
    case None => Failure(NoOutputNames)
    case Some(labelName) =>
      var probName := ProbOutputName(outputNames);
      match ReadLabel(results, labelName)
      case Failure(e) => Failure(e)
      case Success(predicted) =>
        match probName
        case None => Success(Prediction(predicted, [], false))
        case Some(p) =>
          if p !in results then Failure(MissingOutput(p))
          else Success(Prediction(predicted, ProbVector(results[p], conv), true))
  }

  method RunModel(outputNames: seq<string>, results: map<string, Raw>, conv: Conversions)
    returns (r: Result<Prediction, OnnxError>)
    ensures r == Predict(outputNames, results, conv)
  {
    if |outputNames| == 0 {
      return Failure(NoOutputNames);
    }
    var labelOutput := LabelOutputName(outputNames).value;
    var probOutput := ProbOutputName(outputNames);
    var predicted := ReadLabel(results, labelOutput);
    if predicted.Failure? {
      return Failure(predicted.error);
    }
    var probArray := new Float[0];
    assert probArray[..] == [];
    if probOutput.Some? {
      if probOutput.value !in results {
        return Failure(MissingOutput(probOutput.value));
      }
      probArray := NormalizeProbabilities(results[probOutput.value], conv);
    }
    r := Success(Prediction(predicted.value, probArray[..], probOutput.Some?));
  }

  // ---------------------------------------------------------------------------
  // Properties of the whole read-out
  // ---------------------------------------------------------------------------

  /**
   * The read-out succeeds exactly when there is an output name, the label output is a
   * non-empty long[], and a resolved probability output is present; the label is then
   * element 0 of the label output, unchanged.
   */
  lemma PredictSucceeds(outputNames: seq<string>, results: map<string, Raw>, conv: Conversions)
    ensures Predict(outputNames, results, conv).Success? <==>
      && |outputNames| > 0
      && var labelName := LabelOutputName(outputNames).value;
      && labelName in results && results[labelName].LongArray? && |results[labelName].longs| > 0
      && (ProbOutputName(outputNames).Some? ==> ProbOutputName(outputNames).value in results)
    ensures Predict(outputNames, results, conv).Success? ==>
      Predict(outputNames, results, conv).value.predicted ==
        results[LabelOutputName(outputNames).value].longs[0]
  {
  }

  /** Without a probability output name there are no probabilities, whatever the results hold. */
  lemma NoProbOutputMeansNoProbabilities(outputNames: seq<string>, results: map<string, Raw>, conv: Conversions)
    requires forall i :: 0 <= i < |outputNames| ==> !Mentions(outputNames[i], "prob")
    requires Predict(outputNames, results, conv).Success?
    ensures !Predict(outputNames, results, conv).value.hasProbabilities
    ensures Predict(outputNames, results, conv).value.probabilities == []
  {
  }

  /** With a probability output name the vector is the normalised probability output. */
  lemma ProbOutputIsNormalized(outputNames: seq<string>, results: map<string, Raw>, conv: Conversions)
    requires Predict(outputNames, results, conv).Success?
    requires ProbOutputName(outputNames).Some?
    ensures Predict(outputNames, results, conv).value.hasProbabilities
    ensures Predict(outputNames, results, conv).value.probabilities ==
      ProbVector(results[ProbOutputName(outputNames).value], conv)
  {
  }

  // ---------------------------------------------------------------------------
  // Worked scenarios
  // ---------------------------------------------------------------------------

  function BoxedFloatOf(x: real): Raw
  {
    Boxed(BoxedFloat(FloatValue(x)))
  }

  /** {0: 0.7, 1: 0.3} gives [0.7, 0.3]; {0: 0.7} gives [0.7, NaN]. */
  lemma ClassMapScenarios(conv: Conversions)
    ensures ProbVector(JavaMap(map[IntegerKey(0) := BoxedFloatOf(0.7), IntegerKey(1) := BoxedFloatOf(0.3)]), conv)
      == [FloatValue(0.7), FloatValue(0.3)]
    ensures ProbVector(JavaMap(map[IntegerKey(0) := BoxedFloatOf(0.7)]), conv) == [FloatValue(0.7), FloatNaN]
    ensures ProbVector(JavaMap(map[StringKey("0") := BoxedFloatOf(0.7), StringKey("1") := BoxedFloatOf(0.3)]), conv)
      == [FloatValue(0.7), FloatValue(0.3)]
  {
    assert ClassDigit(0) == "0" && ClassDigit(1) == "1";
  }

  /** [[0.6, 0.4]] as a float matrix, and a list holding the float array [0.55, 0.45]. */
  lemma ArrayScenarios(conv: Conversions)
    ensures ProbVector(FloatMatrix([[FloatValue(0.6), FloatValue(0.4)]]), conv)
      == [FloatValue(0.6), FloatValue(0.4)]
    ensures ProbVector(JavaList([FloatArray([FloatValue(0.55), FloatValue(0.45)])]), conv)
      == [FloatValue(0.55), FloatValue(0.45)]
  {
  }

  /** A list holding the single map {0: 0.91, 1: 0.09}, as a ZipMap output gives it. */
  lemma ZipMapScenario(conv: Conversions)
    ensures ProbVector(JavaList([JavaMap(map[IntegerKey(0) := BoxedFloatOf(0.91), IntegerKey(1) := BoxedFloatOf(0.09)])]), conv)
      == [FloatValue(0.91), FloatValue(0.09)]
  {
    assert ClassDigit(0) == "0" && ClassDigit(1) == "1";
  }

  /**
   * A session whose output names resolve to a label output `l` and a probability
   * output `p`, with label 0 and a ZipMap-like list holding {0: 0.91, 1: 0.09}.
   */
  lemma SessionScenario(outputNames: seq<string>, l: string, p: string, conv: Conversions)
    requires LabelOutputName(outputNames) == Some(l)
    requires ProbOutputName(outputNames) == Some(p)
    requires l != p
    ensures Predict(outputNames,
                    map[l := LongArray([0]),
                        p := JavaList([JavaMap(map[IntegerKey(0) := BoxedFloatOf(0.91), IntegerKey(1) := BoxedFloatOf(0.09)])])],
                    conv)
      == Success(Prediction(0, [FloatValue(0.91), FloatValue(0.09)], true))
  {
    var zipMap := JavaMap(map[IntegerKey(0) := BoxedFloatOf(0.91), IntegerKey(1) := BoxedFloatOf(0.09)]);
    var results := map[l := LongArray([0]), p := JavaList([zipMap])];
    ZipMapScenario(conv);
    assert ReadLabel(results, l) == Success(0);
    assert p in results && results[p] == JavaList([zipMap]);
    match LabelOutputName(outputNames)
    case Some(labelName) =>
      assert labelName == l;
  }
}
