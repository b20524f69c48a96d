/**
 * The PMML backend's input binding and probability read-out, with the JPMML
 * evaluator kept abstract: each declared input field prepares the raw feature of
 * the same name, the prepared values go into an insertion-ordered map, and the
 * evaluated distribution is read at class 0 and class 1.
 */
module PenguinPmml {
  import opened Wrappers
  import opened JavaValues

  /** A raw feature value: a number or a category string. */
  datatype Feature = NumericFeature(x: real) | CategoricalFeature(s: string)

  /** A value after an input field's own preparation. */
  datatype FieldValue = ContinuousValue(x: real) | CategoricalValue(s: string) | MissingValue

  /**
   * A declared input field. `prepare` is the field's own coercion, left abstract; it
   * receives None for a feature that is absent (Java's null) and may fail.
   */
  datatype InputField = InputField(name: string, prepare: Option<Feature> -> Result<FieldValue, string>)

  /** `rawFeatures.get(name)`. */
  function Lookup(rawFeatures: map<string, Feature>, name: string): Option<Feature>
  {
    if name in rawFeatures then Some(rawFeatures[name]) else None
  }

  /** `inputField.prepare(rawFeatures.get(inputField.getName()))`. */
  function Prepared(field: InputField, rawFeatures: map<string, Feature>): Result<FieldValue, string>
  {
    field.prepare(Lookup(rawFeatures, field.name))
  }

  /** The names of the declared input fields, in declaration order. */
  function Names(fields: seq<InputField>): (r: seq<string>)
    ensures |r| == |fields|
    ensures forall i :: 0 <= i < |fields| ==> r[i] == fields[i].name
  {
    if fields == [] then [] else [fields[0].name] + Names(fields[1..])
  }

  ghost predicate Distinct(s: seq<string>)
  {
    forall i, j :: 0 <= i < j < |s| ==> s[i] != s[j]
  }

  /** The first occurrence of every element of `s`, in the order of those occurrences. */
  function Dedup(s: seq<string>): seq<string>
  {
    if s == [] then []
    else
      var d := Dedup(s[..|s| - 1]);
      if s[|s| - 1] in d then d else d + [s[|s| - 1]]
  }

  // ---------------------------------------------------------------------------
  // The argument map
  // ---------------------------------------------------------------------------

  /** The abstract value of a `LinkedHashMap<String, Object>`: its key order and its entries. */
  datatype Arguments = Arguments(order: seq<string>, values: map<string, FieldValue>)
  {
    /** Every key occurs once in the iteration order, and the order lists exactly the keys. */
    ghost predicate Wellformed()
    {
      Distinct(order) && forall k :: k in order <==> k in values
    }

    /** `put(k, v)`: a new key goes to the end of the order, an existing key keeps its place. */
    function Put(k: string, v: FieldValue): (r: Arguments)
      ensures Wellformed() ==> r.Wellformed()
      ensures r.values.Keys == values.Keys + {k} && r.values[k] == v
      ensures forall j :: j in values && j != k ==> r.values[j] == values[j]
    {
      Arguments(if k in values then order else order + [k], values[k := v])
    }
  }

  const NoArguments := Arguments([], map[])

  /** The binding loop from argument map `acc` over the fields still to be bound. */
  function BindFrom(acc: Arguments, fields: seq<InputField>, rawFeatures: map<string, Feature>)
    : Result<Arguments, string>
    decreases |fields|
  {
    if fields == [] then Success(acc)
    else
      match Prepared(fields[0], rawFeatures)
      case Failure(e) => Failure(e)
      case Success(v) => BindFrom(acc.Put(fields[0].name, v), fields[1..], rawFeatures)
  }

  /** The argument map `runModel` builds from the declared input fields. */
  function Bind(fields: seq<InputField>, rawFeatures: map<string, Feature>): Result<Arguments, string>
  {
    BindFrom(NoArguments, fields, rawFeatures)
  }

  /** The `LinkedHashMap` the binding loop fills in place. */
  class LinkedMap {
    var order: seq<string>
    var values: map<string, FieldValue>

    function Contents(): Arguments
      reads this
    {
      Arguments(order, values)
    }

    ghost predicate Valid()
      reads this
    {
      Contents().Wellformed()
    }

    constructor ()
      ensures Valid() && Contents() == NoArguments
    {
      order := [];
      values := map[];
    }

    method Put(k: string, v: FieldValue)
      requires Valid()
      modifies this
      ensures Valid() && Contents() == old(Contents()).Put(k, v)
    {
      if k !in values {
        order := order + [k];
      }
      values := values[k := v];
    }
  }

  /**
   * `for (InputField inputField : evaluator.getInputFields())
   *    arguments.put(name, inputField.prepare(rawFeatures.get(name)))`;
   * a failing `prepare` ends the loop with its error.
   */
  method BindArguments(fields: seq<InputField>, rawFeatures: map<string, Feature>)
    returns (r: Result<LinkedMap, string>)
    ensures r.Success? ==> fresh(r.value) && r.value.Valid()
    ensures r.Success? ==> Bind(fields, rawFeatures) == Success(r.value.Contents())
    ensures r.Failure? ==> Bind(fields, rawFeatures) == Failure(r.error)
  {
    var arguments := new LinkedMap();
    for i := 0 to |fields|
      invariant fresh(arguments) && arguments.Valid()
      invariant BindFrom(arguments.Contents(), fields[i..], rawFeatures) == Bind(fields, rawFeatures)
    {
      var inputField := fields[i];
      var name := inputField.name;
      var rawValue := Lookup(rawFeatures, name);
      var prepared := inputField.prepare(rawValue);
      if prepared.Failure? {
        return Failure(prepared.error);
      }
      assert fields[i..][1..] == fields[i + 1..];
      arguments.Put(name, prepared.value);
    }
    return Success(arguments);
  }

  // ---------------------------------------------------------------------------
  // Properties of the binding
  // ---------------------------------------------------------------------------

  lemma {:induction false} DedupContents(s: seq<string>)
    ensures Distinct(Dedup(s))
    ensures forall x :: x in Dedup(s) <==> x in s
  {
    if s != [] {
      DedupContents(s[..|s| - 1]);
      assert s == s[..|s| - 1] + [s[|s| - 1]];
    }
  }

  lemma {:induction false} DedupOfDistinct(s: seq<string>)
    requires Distinct(s)
    ensures Dedup(s) == s
  {
    if s != [] {
      var p := s[..|s| - 1];
      DedupOfDistinct(p);
      assert s[|s| - 1] !in p;
      assert s == p + [s[|s| - 1]];
    }
  }

  lemma {:induction false} BindFromKeys(acc: Arguments, fields: seq<InputField>, rawFeatures: map<string, Feature>)
    requires acc.Wellformed()
    requires BindFrom(acc, fields, rawFeatures).Success?
    ensures BindFrom(acc, fields, rawFeatures).value.Wellformed()
    ensures BindFrom(acc, fields, rawFeatures).value.values.Keys == acc.values.Keys + set n | n in Names(fields)
    decreases |fields|
  {
    if fields != [] {
      var v := Prepared(fields[0], rawFeatures).value;
      BindFromKeys(acc.Put(fields[0].name, v), fields[1..], rawFeatures);
      assert Names(fields) == [fields[0].name] + Names(fields[1..]);
    }
  }

  /**
   * The argument map holds exactly the declared input-field names, each once in its
   * iteration order; raw features under undeclared names are not carried over.
   */
  lemma BindKeys(fields: seq<InputField>, rawFeatures: map<string, Feature>)
    requires Bind(fields, rawFeatures).Success?
    ensures Bind(fields, rawFeatures).value.Wellformed()
    ensures forall k :: k in Bind(fields, rawFeatures).value.values <==>
      exists i :: 0 <= i < |fields| && fields[i].name == k
  {
    BindFromKeys(NoArguments, fields, rawFeatures);
  }

  /** One step of the binding loop: a field whose `prepare` succeeds is put, then the rest is bound. */
  lemma BindFromStep(acc: Arguments, fields: seq<InputField>, rawFeatures: map<string, Feature>)
    requires fields != [] && Prepared(fields[0], rawFeatures).Success?
    ensures BindFrom(acc, fields, rawFeatures) ==
      BindFrom(acc.Put(fields[0].name, Prepared(fields[0], rawFeatures).value), fields[1..], rawFeatures)
  {
  }

  lemma NamesCons(fields: seq<InputField>)
    requires fields != []
    ensures Names(fields) == [fields[0].name] + Names(fields[1..])
  {
  }

  lemma DedupSnoc(done: seq<string>, x: string)
    ensures Dedup(done + [x]) == if x in Dedup(done) then Dedup(done) else Dedup(done) + [x]
  {
    assert (done + [x])[..|done + [x]| - 1] == done;
  }

  lemma {:induction false} BindFromOrder(acc: Arguments, done: seq<string>, fields: seq<InputField>,
                                         rawFeatures: map<string, Feature>)
    requires acc.Wellformed() && acc.order == Dedup(done)
    requires BindFrom(acc, fields, rawFeatures).Success?
    ensures BindFrom(acc, fields, rawFeatures).value.order == Dedup(done + Names(fields))
    decreases |fields|
  {
    if fields == [] {
      assert done + Names(fields) == done;
    } else {
      var name := fields[0].name;
      var rest := fields[1..];
      var next := acc.Put(name, Prepared(fields[0], rawFeatures).value);
      assert (done + [name]) + Names(rest) == done + Names(fields) by {
        NamesCons(fields);
      }
      assert next.Wellformed() && next.order == Dedup(done + [name]) by {
        DedupSnoc(done, name);
        assert name in acc.values <==> name in Dedup(done);
      }
      BindFromStep(acc, fields, rawFeatures);
      BindFromOrder(next, done + [name], rest, rawFeatures);
    }
  }

  /**
   * The iteration order of the argument map is the declaration order of the input
   * fields (a repeated name keeps the place of its first declaration).
   */
  lemma BindOrder(fields: seq<InputField>, rawFeatures: map<string, Feature>)
    requires Bind(fields, rawFeatures).Success?
    ensures Bind(fields, rawFeatures).value.order == Dedup(Names(fields))
    ensures Distinct(Names(fields)) ==> Bind(fields, rawFeatures).value.order == Names(fields)
  {
    BindFromOrder(NoArguments, [], fields, rawFeatures);
    assert [] + Names(fields) == Names(fields);
    if Distinct(Names(fields)) {
      DedupOfDistinct(Names(fields));
    }
  }

  /** No later field is declared under the same name as field `i`. */
  ghost predicate LastOfName(fields: seq<InputField>, i: int)
    requires 0 <= i < |fields|
  {
    forall j :: i < j < |fields| ==> fields[j].name != fields[i].name
  }

  lemma {:induction false} BindFromKept(acc: Arguments, fields: seq<InputField>, rawFeatures: map<string, Feature>)
    requires BindFrom(acc, fields, rawFeatures).Success?
    ensures forall k :: k in acc.values && k !in Names(fields) ==>
      k in BindFrom(acc, fields, rawFeatures).value.values &&
      BindFrom(acc, fields, rawFeatures).value.values[k] == acc.values[k]
    decreases |fields|
  {
    if fields != [] {
      BindFromStep(acc, fields, rawFeatures);
      BindFromKept(acc.Put(fields[0].name, Prepared(fields[0], rawFeatures).value), fields[1..], rawFeatures);
      assert Names(fields) == [fields[0].name] + Names(fields[1..]);
    }
  }

  lemma {:induction false} BindFromValues(acc: Arguments, fields: seq<InputField>, rawFeatures: map<string, Feature>)
    requires BindFrom(acc, fields, rawFeatures).Success?
    ensures forall i :: 0 <= i < |fields| && LastOfName(fields, i) ==>
      fields[i].name in BindFrom(acc, fields, rawFeatures).value.values &&
      Prepared(fields[i], rawFeatures) == Success(BindFrom(acc, fields, rawFeatures).value.values[fields[i].name])
    decreases |fields|
  {
    if fields != [] {
      var rest := fields[1..];
      var next := acc.Put(fields[0].name, Prepared(fields[0], rawFeatures).value);
      BindFromStep(acc, fields, rawFeatures);
      BindFromValues(next, rest, rawFeatures);
      var a := BindFrom(next, rest, rawFeatures).value;
      forall i | 0 <= i < |fields| && LastOfName(fields, i)
        ensures fields[i].name in a.values && Prepared(fields[i], rawFeatures) == Success(a.values[fields[i].name])
      {
        if i == 0 {
          forall j | 0 <= j < |rest| ensures Names(rest)[j] != fields[0].name {
            assert rest[j] == fields[j + 1];
          }
          BindFromKept(next, rest, rawFeatures);
        } else {
          assert rest[i - 1] == fields[i];
          assert LastOfName(rest, i - 1) by {
            forall j | i - 1 < j < |rest| ensures rest[j].name != rest[i - 1].name {
              assert rest[j] == fields[j + 1];
            }
          }
        }
      }
    }
  }

  /**
   * Each declared field's entry is that field's own `prepare` applied to the raw
   * feature of the same name (None when it is absent); for a repeated name the last
   * declaration's value is kept, as `put` overwrites.
   */
  lemma BindValues(fields: seq<InputField>, rawFeatures: map<string, Feature>, i: int)
    requires Bind(fields, rawFeatures).Success?
    requires 0 <= i < |fields| && LastOfName(fields, i)
    ensures fields[i].name in Bind(fields, rawFeatures).value.values
    ensures fields[i].prepare(Lookup(rawFeatures, fields[i].name)) ==
      Success(Bind(fields, rawFeatures).value.values[fields[i].name])
    ensures fields[i].name !in rawFeatures ==>
      fields[i].prepare(None) == Success(Bind(fields, rawFeatures).value.values[fields[i].name])
  {
    BindFromValues(NoArguments, fields, rawFeatures);
  }

  lemma {:induction false} BindFromFailure(acc: Arguments, fields: seq<InputField>, rawFeatures: map<string, Feature>)
    ensures BindFrom(acc, fields, rawFeatures).Failure? <==>
      exists i :: 0 <= i < |fields| && Prepared(fields[i], rawFeatures).Failure?
    ensures BindFrom(acc, fields, rawFeatures).Failure? ==>
      exists i :: 0 <= i < |fields| && Prepared(fields[i], rawFeatures).Failure?
        && (forall j :: 0 <= j < i ==> Prepared(fields[j], rawFeatures).Success?)
        && BindFrom(acc, fields, rawFeatures).error == Prepared(fields[i], rawFeatures).error
    decreases |fields|
  {
    if fields != [] && Prepared(fields[0], rawFeatures).Success? {
      var next := acc.Put(fields[0].name, Prepared(fields[0], rawFeatures).value);
      var rest := fields[1..];
      BindFromFailure(next, rest, rawFeatures);
      if exists i :: 0 <= i < |fields| && Prepared(fields[i], rawFeatures).Failure? {
        var i :| 0 <= i < |fields| && Prepared(fields[i], rawFeatures).Failure?;
        assert rest[i - 1] == fields[i];
      }
      if BindFrom(acc, fields, rawFeatures).Failure? {
        var i :| 0 <= i < |rest| && Prepared(rest[i], rawFeatures).Failure?
          && (forall j :: 0 <= j < i ==> Prepared(rest[j], rawFeatures).Success?)
          && BindFrom(next, rest, rawFeatures).error == Prepared(rest[i], rawFeatures).error;
        assert forall j :: 0 <= j < i + 1 ==> Prepared(fields[j], rawFeatures).Success? by {
          forall j | 0 < j < i + 1 ensures Prepared(fields[j], rawFeatures).Success? {
            assert fields[j] == rest[j - 1];
          }
        }
        assert fields[i + 1] == rest[i];
      }
    }
  }

  /**
   * Binding fails exactly when some field's `prepare` fails, and it reports the error
   * of the first such field: the loop neither skips nor defaults a missing feature.
   */
  lemma BindFailure(fields: seq<InputField>, rawFeatures: map<string, Feature>)
    ensures Bind(fields, rawFeatures).Failure? <==>
      exists i :: 0 <= i < |fields| && Prepared(fields[i], rawFeatures).Failure?
    ensures Bind(fields, rawFeatures).Failure? ==>
      exists i :: 0 <= i < |fields| && Prepared(fields[i], rawFeatures).Failure?
        && (forall j :: 0 <= j < i ==> Prepared(fields[j], rawFeatures).Success?)
        && Bind(fields, rawFeatures).error == Prepared(fields[i], rawFeatures).error
  {
    BindFromFailure(NoArguments, fields, rawFeatures);
  }

  lemma {:induction false} BindFromIgnoresUndeclared(acc: Arguments, fields: seq<InputField>,
                                                     raw: map<string, Feature>, raw': map<string, Feature>)
    requires forall i :: 0 <= i < |fields| ==> Lookup(raw, fields[i].name) == Lookup(raw', fields[i].name)
    ensures BindFrom(acc, fields, raw) == BindFrom(acc, fields, raw')
    decreases |fields|
  {
    if fields != [] {
      assert Prepared(fields[0], raw) == Prepared(fields[0], raw');
      if Prepared(fields[0], raw).Success? {
        var rest := fields[1..];
        assert forall i :: 0 <= i < |rest| ==> rest[i] == fields[i + 1];
        BindFromIgnoresUndeclared(acc.Put(fields[0].name, Prepared(fields[0], raw).value), rest, raw, raw');
      }
    }
  }

  /** Raw features under names no field declares have no effect on the binding. */
  lemma BindIgnoresUndeclared(fields: seq<InputField>, raw: map<string, Feature>, raw': map<string, Feature>)
    requires forall n :: n in Names(fields) ==> Lookup(raw, n) == Lookup(raw', n)
    ensures Bind(fields, raw) == Bind(fields, raw')
  {
    BindFromIgnoresUndeclared(NoArguments, fields, raw, raw');
  }

  // ---------------------------------------------------------------------------
  // Evaluation and the probability read-out
  // ---------------------------------------------------------------------------

  /** A `ProbabilityDistribution`: the predicted value and `getProbability` by class. */
  datatype Distribution = Distribution(result: FieldValue, probability: int -> Double)

  /** The evaluator: its declared input fields and `evaluate`, both abstract. */
  datatype Evaluator = Evaluator(inputFields: seq<InputField>, evaluate: Arguments -> Distribution)

  datatype PmmlPrediction = PmmlPrediction(predicted: FieldValue, probabilities: seq<Double>)

  /** `getProbability(0)` then `getProbability(1)`: class 0 first, then class 1. */
  function ProbabilityPair(dist: Distribution): (p: seq<Double>)
    ensures |p| == 2
    ensures forall c :: 0 <= c < 2 ==> p[c] == dist.probability(c)
  {
    [dist.probability(0), dist.probability(1)]
  }

  /** What `runModel` computes once the evaluator is built and verified. */
  function Predict(evaluator: Evaluator, rawFeatures: map<string, Feature>): Result<PmmlPrediction, string>
  {
    match Bind(evaluator.inputFields, rawFeatures)
    case Failure(e) => Failure(e)
    case Success(arguments) =>
      var dist := evaluator.evaluate(arguments);
      Success(PmmlPrediction(dist.result, ProbabilityPair(dist)))
  }

  method RunModel(evaluator: Evaluator, rawFeatures: map<string, Feature>) returns (r: Result<PmmlPrediction, string>)
    ensures r == Predict(evaluator, rawFeatures)
  {
    var bound := BindArguments(evaluator.inputFields, rawFeatures);
    if bound.Failure? {
      return Failure(bound.error);
    }
    var arguments := bound.value;
    var dist := evaluator.evaluate(arguments.Contents());
    var probAdelie := dist.probability(0);
    var probGentoo := dist.probability(1);
    r := Success(PmmlPrediction(dist.result, [probAdelie, probGentoo]));
  }

  /**
   * The evaluator sees exactly the bound arguments; when binding fails the evaluator
   * is never consulted, so any two evaluators over the same fields agree.
   */
  lemma PredictUsesBinding(fields: seq<InputField>, evaluate: Arguments -> Distribution,
                           evaluate': Arguments -> Distribution, rawFeatures: map<string, Feature>)
    ensures Predict(Evaluator(fields, evaluate), rawFeatures).Success? <==> Bind(fields, rawFeatures).Success?
    ensures Bind(fields, rawFeatures).Success? ==>
      var dist := evaluate(Bind(fields, rawFeatures).value);
      Predict(Evaluator(fields, evaluate), rawFeatures).value ==
        PmmlPrediction(dist.result, [dist.probability(0), dist.probability(1)])
    ensures Bind(fields, rawFeatures).Failure? ==>
      Predict(Evaluator(fields, evaluate), rawFeatures) == Predict(Evaluator(fields, evaluate'), rawFeatures)
  {
  }

  /**
   * A model declaring "bill_length_mm" and "island", given only the bill length: the
   * loop hands `prepare` of "island" the absent value; when that `prepare` refuses it,
   * the run fails with its error and the evaluator is not consulted.
   */
  lemma MissingIslandScenario(prepareBill: Option<Feature> -> Result<FieldValue, string>,
                              prepareIsland: Option<Feature> -> Result<FieldValue, string>,
                              evaluate: Arguments -> Distribution, evaluate': Arguments -> Distribution)
    requires prepareBill(Some(NumericFeature(40.3))).Success?
    requires prepareIsland(None).Failure?
    ensures var fields := [InputField("bill_length_mm", prepareBill), InputField("island", prepareIsland)];
      var raw := map["bill_length_mm" := NumericFeature(40.3)];
      && Predict(Evaluator(fields, evaluate), raw) == Failure(prepareIsland(None).error)
      && Predict(Evaluator(fields, evaluate), raw) == Predict(Evaluator(fields, evaluate'), raw)
  {
    var fields := [InputField("bill_length_mm", prepareBill), InputField("island", prepareIsland)];
    var raw := map["bill_length_mm" := NumericFeature(40.3)];
    assert "island" !in raw;
    assert Prepared(fields[0], raw).Success?;
    assert Prepared(fields[1], raw) == prepareIsland(None);
    var acc := NoArguments.Put("bill_length_mm", Prepared(fields[0], raw).value);
    assert fields[1..][1..] == [];
    assert BindFrom(acc, fields[1..], raw) == Failure(prepareIsland(None).error);
    assert Bind(fields, raw) == Failure(prepareIsland(None).error);
  }
}
