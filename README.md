# Penguin classifier output normaliser — Dafny model

The repository runs one penguin example (a bill length and an island) through a binary
classifier exported in two formats: ONNX, run with ONNX Runtime, and PMML, run with JPMML.
It then reports a predicted label and the class-0 / class-1 probabilities. This project
models the logic that the two Java entry points own:

* **ONNX output normaliser** (`PenguinOnnx.runModel`). It picks the label output and the
  optional probability output from the session's declared output names. The rule is a
  case-insensitive search for `"label"` and `"prob"`; if no name mentions `"label"`, the
  first name is used. It reads the label as element 0 of a `long[]`. It then turns the
  probability value, whose runtime shape is unknown, into a probability vector:
  * an `OnnxMap` is unwrapped once;
  * the value is classified by the ordered `instanceof` chain: `float[][]`, `double[][]`,
    `Map`, then a non-empty `List` whose first element is a `Map`, a `float[]` or a `double[]`;
  * a map gives its class-0 and class-1 entries, with NaN where an entry is missing;
  * every other shape gives the empty vector.
* **PMML input binding** (`PenguinPmml.runModel`). It fills an insertion-ordered
  `LinkedHashMap`: each declared input field's own `prepare` gets the raw feature of the
  same name. It then reads `getProbability(0)` and `getProbability(1)` from the evaluated
  distribution.

Layout:

* `wrappers.dfy` (`Wrappers`): `Option` stands for Java's null / `Optional`, and `Result`
  for a thrown exception.
* `java_values.dfy` (`JavaValues`): the runtime shapes the normaliser inspects. `Raw` has
  one constructor per Java class involved. `Float` and `Double` carry a number or a NaN tag.
  Map keys are `Integer`, `Long` or `String`, compared as Java compares boxed keys.
  `Conversions` holds the two numeric conversions, `(float) d` and `Number.floatValue()`; they
  are left abstract and passed in as parameters.
* `output_names.dfy` (`OutputNames`): the pure stream pipelines that select output names.
* `penguin_onnx.dfy` (`PenguinOnnx`): `ProbVector` is the reference definition, an explicit
  classifier (`Classify`) into recognised shapes. `NormalizeProbabilities` is the imperative
  if-chain over arrays, proved equal to `ProbVector`. `Predict` and `RunModel` do the whole
  read-out.
* `penguin_pmml.dfy` (`PenguinPmml`): `LinkedMap` is the `LinkedHashMap` as a class whose
  `Put` updates it in place. `Bind` is the reference definition of the binding loop, and
  `BindArguments` is that loop. The evaluator is a datatype with function fields.

In these places the model follows the code:

* A declared input with no raw feature is not reported as an error by the binding loop.
  `prepare` receives the absent value, and any failure comes from `prepare`
  (`BindValues`, `BindFailure`, `MissingIslandScenario`).
* A resolved probability output name that is missing from the session result is not
  absorbed. `Optional.get()` throws, so the model returns `MissingOutput` (`Predict`).
* A `float[][]` row and a list's `float[]` are returned as they are. Only `double` data is
  narrowed.
* `map.get(0)` boxes `0` as an `Integer`. A map whose keys are `Long` values therefore
  yields `[NaN, NaN]` (`LongKeyedMapIsNaN`).
* An empty output-name set makes `iterator().next()` throw `NoSuchElementException`
  (PenguinOnnx.java:40); the model returns `NoOutputNames` (`LabelOutputName`, `Predict`).

## Model

| member | source | states |
|---|---|---|
| OutputNames.ToLower | java_test/main/java/com/example/PenguinOnnx.java:38 | lower-casing keeps the length and maps every character through the ASCII case mapping |
| OutputNames.Contains | java_test/main/java/com/example/PenguinOnnx.java:38 | `contains` is true exactly when the key occurs at some position of the string |
| OutputNames.FirstMention | java_test/main/java/com/example/PenguinOnnx.java:37-39 | `filter`/`findFirst` gives the least index whose lower-cased name contains the key, and nothing exactly when no name contains it |
| OutputNames.LabelOutputName | java_test/main/java/com/example/PenguinOnnx.java:37-40 | it gives nothing (the `NoSuchElementException` of `iterator().next()`) exactly when there are no output names; otherwise it gives the first name, in declaration order, whose lower-cased form contains "label", else the first declared name |
| OutputNames.ProbOutputName | java_test/main/java/com/example/PenguinOnnx.java:42-45 | it gives the first declared name whose lower-cased form contains "prob", and is absent (null, no error) exactly when no name does |
| PenguinOnnx.NarrowedAt | java_test/main/java/com/example/PenguinOnnx.java:58-60 | element-wise narrowing keeps the length, and element i is the narrowing of source element i |
| PenguinOnnx.UnwrapOnce | java_test/main/java/com/example/PenguinOnnx.java:52-54 | a value wrapped in one OnnxMap gives the same vector as the bare value |
| PenguinOnnx.NestedWrapNotUnwrapped | java_test/main/java/com/example/PenguinOnnx.java:52-54 | a second nested OnnxMap is not unwrapped again and yields the empty vector |
| PenguinOnnx.FloatMatrixRule | java_test/main/java/com/example/PenguinOnnx.java:55-56 | a float matrix with at least one row yields row 0 unchanged |
| PenguinOnnx.DoubleMatrixRule | java_test/main/java/com/example/PenguinOnnx.java:57-60 | a double matrix with a row yields a vector as long as row 0 whose element i is the narrowing of row 0's element i |
| PenguinOnnx.MapRule | java_test/main/java/com/example/PenguinOnnx.java:61-66 | a map yields exactly two entries; position c uses the Integer key c if its value is non-null, else the String key "c"; a Number gives its floatValue, anything else (absent included) gives NaN at that position only |
| PenguinOnnx.MapReadsOnlyClassKeys | java_test/main/java/com/example/PenguinOnnx.java:63-64 | two maps that agree on Integer 0/1 and String "0"/"1" give the same vector |
| PenguinOnnx.LongKeyedMapIsNaN | java_test/main/java/com/example/PenguinOnnx.java:63-66 | a map keyed only by Long values yields [NaN, NaN], since `map.get(0)` looks up an Integer |
| PenguinOnnx.ListUsesFirstOnly | java_test/main/java/com/example/PenguinOnnx.java:67-68 | for a non-empty list only element 0 matters: lists with the same first element give the same vector |
| PenguinOnnx.ListRule | java_test/main/java/com/example/PenguinOnnx.java:67-80 | a list whose first element is a map gives the map rule's result; a first float array is returned as it is; a first double array is narrowed element-wise with its length kept |
| PenguinOnnx.FallThrough | java_test/main/java/com/example/PenguinOnnx.java:49-81 | zero-row matrices, the empty list, a list whose first element is another type, and every other object give the empty vector, bare or wrapped once |
| PenguinOnnx.NonEmptyMeansRecognized | java_test/main/java/com/example/PenguinOnnx.java:55-81 | a non-empty vector comes only from one of the recognised shapes after one unwrap (the converse of the fall-through) |
| PenguinOnnx.NarrowRow | java_test/main/java/com/example/PenguinOnnx.java:78-79 | the narrowing loop fills a freshly allocated array whose contents are the element-wise narrowing of the source row |
| PenguinOnnx.FromClassMap | java_test/main/java/com/example/PenguinOnnx.java:62-66 | the freshly allocated two-element array filled from a class-index map holds the map rule's vector |
| PenguinOnnx.NormalizeProbabilities | java_test/main/java/com/example/PenguinOnnx.java:49-81 | the imperative if-chain over the raw probability value leaves `probArray` holding exactly the reference vector `ProbVector`, and it never fails |
| PenguinOnnx.ReadLabel | java_test/main/java/com/example/PenguinOnnx.java:47 | the label is read exactly when the label output is present and is a non-empty long[], and it is then element 0, unchanged |
| PenguinOnnx.RunModel | java_test/main/java/com/example/PenguinOnnx.java:37-82 | the read-out method returns exactly the prediction or error that `Predict` defines |
| PenguinOnnx.PredictSucceeds | java_test/main/java/com/example/PenguinOnnx.java:37-51 | the read-out succeeds exactly when there is an output name, the label output is a non-empty long[] and a resolved probability output is present; the label is element 0 of the label output |
| PenguinOnnx.NoProbOutputMeansNoProbabilities | java_test/main/java/com/example/PenguinOnnx.java:42-50 | when no name mentions "prob", the prediction has no probabilities and an empty vector, whatever the results hold |
| PenguinOnnx.ProbOutputIsNormalized | java_test/main/java/com/example/PenguinOnnx.java:50-51 | when a probability output is resolved, the prediction has probabilities, and they are the normalised probability output |
| PenguinOnnx.ClassMapScenarios | java_test/main/java/com/example/PenguinOnnx.java:61-66 | {0: 0.7, 1: 0.3} gives [0.7, 0.3]; {0: 0.7} gives [0.7, NaN]; {"0": 0.7, "1": 0.3} gives [0.7, 0.3] |
| PenguinOnnx.ArrayScenarios | java_test/main/java/com/example/PenguinOnnx.java:55-76 | [[0.6, 0.4]] as a float matrix gives [0.6, 0.4]; a list holding the float array [0.55, 0.45] gives [0.55, 0.45] |
| PenguinOnnx.ZipMapScenario | java_test/main/java/com/example/PenguinOnnx.java:67-74 | a list holding {0: 0.91, 1: 0.09} gives [0.91, 0.09] |
| PenguinOnnx.SessionScenario | java_test/main/java/com/example/PenguinOnnx.java:37-74 | with label output 0 and probability output [{0: 0.91, 1: 0.09}], the prediction is label 0 with [0.91, 0.09] and probabilities present |
| JavaValues.Get | java_test/main/java/com/example/PenguinOnnx.java:63-64 | reference definition of `Map.get`: the stored value, or null when the key is absent; used by MapRule and LongKeyedMapIsNaN |
| JavaValues.FloatValueOf | java_test/main/java/com/example/PenguinOnnx.java:65-66 | reference definition of `Number.floatValue()` through the abstract conversions; used by MapRule |
| OutputNames.Mentions | java_test/main/java/com/example/PenguinOnnx.java:38 | reference definition of the filter lambda, lower-casing then `contains`; its meaning is given by ToLower and Contains, and it is used by FirstMention, LabelOutputName and ProbOutputName |
| PenguinOnnx.Unwrap | java_test/main/java/com/example/PenguinOnnx.java:52-54 | reference definition of the one-level OnnxMap unwrap; stated by UnwrapOnce and NestedWrapNotUnwrapped |
| PenguinOnnx.Classify | java_test/main/java/com/example/PenguinOnnx.java:55-81 | reference definition of the ordered branch choice; stated by FallThrough and NonEmptyMeansRecognized |
| PenguinOnnx.ClassEntry | java_test/main/java/com/example/PenguinOnnx.java:63-64 | reference definition of the Integer-key-then-String-key lookup; stated by MapRule and MapReadsOnlyClassKeys |
| PenguinOnnx.ProbVector | java_test/main/java/com/example/PenguinOnnx.java:49-81 | reference definition of the probability vector; stated by FloatMatrixRule, DoubleMatrixRule, MapRule, ListRule, FallThrough and NonEmptyMeansRecognized, and met by NormalizeProbabilities |
| PenguinOnnx.Predict | java_test/main/java/com/example/PenguinOnnx.java:37-82 | reference definition of the read-out; stated by PredictSucceeds, NoProbOutputMeansNoProbabilities and ProbOutputIsNormalized, and met by RunModel |
| PenguinOnnx.Narrowed | java_test/main/java/com/example/PenguinOnnx.java:59-60 | reference definition of the element-wise `(float)` narrowing of a double row; stated by NarrowedAt and met by NarrowRow |
| PenguinOnnx.ProbOf | java_test/main/java/com/example/PenguinOnnx.java:65-66 | reference definition of `(v instanceof Number n) ? n.floatValue() : Float.NaN`; stated by MapRule and met by FromClassMap |
| PenguinOnnx.ClassMapVector | java_test/main/java/com/example/PenguinOnnx.java:62-66 | reference definition of the two-element class-map vector; stated by MapRule and met by FromClassMap |
| PenguinOnnx.ShapeVector | java_test/main/java/com/example/PenguinOnnx.java:55-80 | reference definition of the vector each recognised shape gives; stated by FloatMatrixRule, DoubleMatrixRule, MapRule, ListRule and FallThrough |
| PenguinPmml.Lookup | java_test/main/java/com/example/PenguinPmml.java:38 | reference definition of `rawFeatures.get(name)`, absent when the name is missing; stated by BindValues, BindIgnoresUndeclared and BindFailure |
| PenguinPmml.Prepared | java_test/main/java/com/example/PenguinPmml.java:39 | reference definition of `inputField.prepare(rawFeatures.get(name))`; stated by BindValues, BindIgnoresUndeclared and BindFailure |
| PenguinPmml.Names | java_test/main/java/com/example/PenguinPmml.java:36-37 | the declared names have one entry per input field, in declaration order; used by BindKeys and BindOrder |
| PenguinPmml.BindFrom | java_test/main/java/com/example/PenguinPmml.java:36-40 | reference definition of the loop from a given argument map over the remaining fields; stated by BindFromKeys, BindFromOrder, BindFromValues, BindFromKept, BindFromFailure and BindFromIgnoresUndeclared |
| PenguinPmml.Bind | java_test/main/java/com/example/PenguinPmml.java:35-40 | reference definition of the argument map; stated by BindKeys, BindOrder, BindValues, BindFailure and BindIgnoresUndeclared, and met by BindArguments |
| PenguinPmml.Predict | java_test/main/java/com/example/PenguinPmml.java:35-49 | reference definition of the PMML read-out; stated by PredictUsesBinding and MissingIslandScenario, and met by RunModel |
| PenguinPmml.Arguments.Put | java_test/main/java/com/example/PenguinPmml.java:39 | `put` keeps the map well formed, adds the key and stores the value under it, and leaves the other entries unchanged |
| PenguinPmml.LinkedMap.constructor | java_test/main/java/com/example/PenguinPmml.java:35 | a new argument map is empty and well formed |
| PenguinPmml.LinkedMap.Put | java_test/main/java/com/example/PenguinPmml.java:39 | the in-place `put` leaves the map well formed and changes its value exactly as `Arguments.Put` does |
| PenguinPmml.BindArguments | java_test/main/java/com/example/PenguinPmml.java:35-40 | the loop returns a fresh, well-formed argument map equal to `Bind`, or the error of `Bind` |
| PenguinPmml.BindKeys | java_test/main/java/com/example/PenguinPmml.java:36-39 | the keys of the argument map are exactly the declared input-field names, each once; undeclared raw features are not passed on |
| PenguinPmml.BindOrder | java_test/main/java/com/example/PenguinPmml.java:35-39 | the iteration order is the declaration order of the input fields (first occurrences), and equals it exactly when the names are distinct |
| PenguinPmml.BindValues | java_test/main/java/com/example/PenguinPmml.java:37-39 | each field's entry is its own `prepare` applied to the raw feature of the same name, absent when that name is missing (for a repeated name, the last declaration's value) |
| PenguinPmml.BindFailure | java_test/main/java/com/example/PenguinPmml.java:37-39 | binding fails exactly when some field's `prepare` fails, and it reports the first such field's error; nothing is skipped or defaulted |
| PenguinPmml.BindIgnoresUndeclared | java_test/main/java/com/example/PenguinPmml.java:38 | raw features that agree on the declared names give the same binding |
| PenguinPmml.ProbabilityPair | java_test/main/java/com/example/PenguinPmml.java:48-49 | the reported pair has two entries, class 0's probability first and then class 1's |
| PenguinPmml.RunModel | java_test/main/java/com/example/PenguinPmml.java:35-49 | the method returns exactly the result that `Predict` defines |
| PenguinPmml.PredictUsesBinding | java_test/main/java/com/example/PenguinPmml.java:35-49 | evaluation succeeds exactly when binding does and sees exactly the bound arguments; when binding fails, the evaluator is not consulted |
| PenguinPmml.MissingIslandScenario | java_test/main/java/com/example/PenguinPmml.java:37-39 | with "island" declared but absent, `prepare` gets the absent value; if it refuses, the run fails with its error whatever the evaluator does |

## Left out

- ONNX Runtime plumbing is not modelled: environment and session creation, `OnnxTensor.createTensor`, `session.run` and the try-with-resources release (PenguinOnnx.java:26-36). These are foreign-library calls. The declared output names and the session result are inputs.
- JPMML plumbing is not modelled: `PMMLUtil.unmarshal`, `ModelEvaluatorBuilder.build` and `verify` (with its verification error), `evaluate`, the target-field lookup, the cast to `ProbabilityDistribution`, and the internals of `getResult`/`getProbability` (PenguinPmml.java:30-33, 42-49). These are third-party code. The evaluator, `prepare` and the distribution are function-valued parameters.
- Console output and both `main` methods are left out. They are I/O with hard-coded demo inputs.
- The Python training, export and inference scripts are left out. They call seaborn, pandas, numpy, scikit-learn, skl2onnx, sklearn2pmml and pypmml, and print or write files; none holds logic of the Java entry points.
- IEEE floating point is not modelled. `(float) d` and `Number.floatValue()` are abstract, and NaN is a tag.
- OutputNames.ToLower: only ASCII letters are lower-cased. Java's locale-dependent Unicode case mapping is not modelled.
- PenguinOnnx.NormalizeProbabilities: for a `float[][]` row and a list's `float[]`, the result is a new array with the same contents, not the shared array the source returns. Aliasing is not modelled.
- JVM exceptions are modelled as `OnnxError` results, not as exceptions. This covers an empty name set, an absent output, the `(long[])` cast and index 0 of an empty `long[]`.
- Java `null` rows inside a matrix are not modelled. Any `Number` other than `Float` and `Double` is one integral box.
